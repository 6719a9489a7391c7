/**
 * `recombine_fragment_models`: one contraction of the fragment tensors per choice of a circuit
 * outcome on every fragment, stored under the combined outcome of the uncut circuit.
 */
module Rebuild {
  import opened Common
  import opened Circuits
  import opened Fragments
  import opened Containers
  import opened Products
  import opened PostProcess

  /**
   * `qtn.TensorNetwork(tensors).contract(optimize=path)`: the value of the contracted network.
   * The contraction path only chooses an order of evaluation, so the value depends on the tensors alone.
   */
  type Contract = seq<Tensor> -> Complex

  /** Lines 24-27: the fragment of every model, under the model's key. */
  function ModelFragments(models: Dict<FragmentKey, FragmentModel>): (r: Dict<FragmentKey, Fragment>)
    ensures |r| == |models| && forall i :: 0 <= i < |models| ==> r[i] == (models[i].0, models[i].1.fragment)
    ensures Keys(r) == Keys(models)
  {
    seq(|models|, i requires 0 <= i < |models| => (models[i].0, models[i].1.fragment))
  }

  /**
   * The tensors `get_contraction_path` puts in its network: the first block of every model.
   * `next` on the blocks of a model without blocks raises `StopIteration`.
   */
  function FirstBlocks(models: Dict<FragmentKey, FragmentModel>): (r: Result<seq<Tensor>>)
    ensures r.Ok? <==> forall i :: 0 <= i < |models| ==> models[i].1.NumBlocks() > 0
    ensures r.Err? ==> r.error == StopIteration
    ensures r.Ok? ==> |r.value| == |models| && forall i :: 0 <= i < |models| ==> r.value[i] == models[i].1.Blocks()[0].1
  {
    if exists i :: 0 <= i < |models| && models[i].1.NumBlocks() == 0 then Err(StopIteration)
    else Ok(seq(|models|, i requires 0 <= i < |models| => models[i].1.Blocks()[0].1))
  }

  /** `frag_circuit_outputs`: the substrings of every model, in key order. */
  function Options(models: Dict<FragmentKey, FragmentModel>): (r: seq<seq<BitString>>)
    ensures |r| == |models| && forall i :: 0 <= i < |models| ==> r[i] == models[i].1.Substrings()
  {
    seq(|models|, i requires 0 <= i < |models| => models[i].1.Substrings())
  }

  /** `dict(zip(keys, values))`: pairs up to the shorter sequence, a later pair winning. */
  function Zipped(keys: seq<FragmentKey>, values: seq<BitString>): (r: map<FragmentKey, BitString>)
    ensures forall k :: k in r <==> exists i :: 0 <= i < |keys| && i < |values| && keys[i] == k
  {
    if keys == [] || values == [] then map[]
    else
      var n := if |keys| < |values| then |keys| else |values|;
      var prev := Zipped(keys[..n - 1], values[..n - 1]);
      assert forall i :: 0 <= i < n - 1 ==> keys[..n - 1][i] == keys[i];
      prev[keys[n - 1] := values[n - 1]]
  }

  /** With distinct keys, each key is paired with the value at its own position. */
  lemma {:induction false} ZippedAt(keys: seq<FragmentKey>, values: seq<BitString>, i: nat)
    requires Distinct(keys) && |keys| == |values| && i < |keys|
    ensures keys[i] in Zipped(keys, values) && Zipped(keys, values)[keys[i]] == values[i]
  {
    var n := |keys|;
    if i < n - 1 {
      assert keys[..n - 1][i] == keys[i];
      assert values[..n - 1][i] == values[i];
      ZippedAt(keys[..n - 1], values[..n - 1], i);
    }
  }

  /**
   * Lines 47-50: `block(substring)` of every model for its chosen substring, in key order
   * (with distinct keys the items of the zipped dict come in that order).
   */
  function Tensors(models: Dict<FragmentKey, FragmentModel>, choice: seq<BitString>): (r: Result<seq<Tensor>>)
    requires |choice| == |models|
    ensures r.Ok? <==> forall i :: 0 <= i < |models| ==> models[i].1.Block(choice[i]).Ok?
    ensures r.Err? ==> r.error == KeyError
    ensures r.Ok? ==> |r.value| == |models| && forall i :: 0 <= i < |models| ==> Ok(r.value[i]) == models[i].1.Block(choice[i])
  {
    if exists i :: 0 <= i < |models| && models[i].1.Block(choice[i]).Err? then Err(KeyError)
    else Ok(seq(|models|, i requires 0 <= i < |models| => models[i].1.Block(choice[i]).value))
  }

  /** One iteration of the loop of line 37: the combined outcome and the real part of the contraction. */
  function Entry(models: Dict<FragmentKey, FragmentModel>, c: Combiner, contract: Contract, choice: seq<BitString>)
    : Result<(BitString, real)>
    requires |choice| == |models|
  {
    var outcome :- Combine(c, Zipped(Keys(models), choice));
    var tensors :- Tensors(models, choice);
    Ok((outcome, contract(tensors).re))
  }

  /** Every choice picks one substring per model. */
  predicate Uniform(models: Dict<FragmentKey, FragmentModel>, choices: seq<seq<BitString>>)
  {
    forall j :: 0 <= j < |choices| ==> |choices[j]| == |models|
  }

  /** The iterations of the loop over `choices`, in order. */
  function Entries(models: Dict<FragmentKey, FragmentModel>, c: Combiner, contract: Contract, choices: seq<seq<BitString>>)
    : (r: seq<Result<(BitString, real)>>)
    requires Uniform(models, choices)
    ensures |r| == |choices| && forall j :: 0 <= j < |choices| ==> r[j] == Entry(models, c, contract, choices[j])
  {
    seq(|choices|, j requires 0 <= j < |choices| => Entry(models, c, contract, choices[j]))
  }

  /**
   * `recombined_distribution` after the iterations `entries`: each entry stored under its outcome
   * with `d[k] = v` (a later one overwriting), the first failing iteration ending the loop.
   */
  function Record(entries: seq<Result<(BitString, real)>>): Result<Dict<BitString, real>>
  {
    if entries == [] then Ok([])
    else
      var prev :- Record(entries[..|entries| - 1]);
      var entry :- entries[|entries| - 1];
      Ok(Store(prev, entry.0, entry.1))
  }

  /** The loop completes exactly when every iteration has an entry, and otherwise fails as the first failing one does. */
  lemma {:induction false} RecordOk(entries: seq<Result<(BitString, real)>>)
    ensures Record(entries).Ok? <==> forall j :: 0 <= j < |entries| ==> entries[j].Ok?
    ensures Record(entries).Err? ==> exists j :: (
      && 0 <= j < |entries|
      && entries[j].Err?
      && Record(entries) == Err(entries[j].error)
      && forall l :: 0 <= l < j ==> entries[l].Ok?)
  {
    if entries != [] {
      var n := |entries| - 1;
      var init := entries[..n];
      assert forall j :: 0 <= j < n ==> init[j] == entries[j];
      RecordOk(init);
      if Record(init).Err? {
        var j :| 0 <= j < n && init[j].Err? && Record(init) == Err(init[j].error) && forall l :: 0 <= l < j ==> init[l].Ok?;
        assert entries[j] == init[j];
      }
    }
  }

  /** One more iteration: a failing entry ends the loop with its error, another is stored. */
  lemma {:induction false} RecordNext(entries: seq<Result<(BitString, real)>>, j: nat, prev: Dict<BitString, real>)
    requires j < |entries| && Record(entries[..j]) == Ok(prev)
    ensures entries[j].Err? ==> Record(entries[..j + 1]) == Err(entries[j].error)
    ensures entries[j].Ok? ==> Record(entries[..j + 1]) == Ok(Store(prev, entries[j].value.0, entries[j].value.1))
  {
    var s := entries[..j + 1];
    assert s[..|s| - 1] == entries[..j];
    assert s[|s| - 1] == entries[j];
  }

  /** Once a prefix of the loop fails, the whole loop fails the same way. */
  lemma {:induction false} RecordPrefix(entries: seq<Result<(BitString, real)>>, i: nat)
    requires i <= |entries| && Record(entries[..i]).Err?
    ensures Record(entries) == Record(entries[..i])
    decreases |entries| - i
  {
    if i == |entries| {
      assert entries[..i] == entries;
    } else {
      var n := |entries| - 1;
      assert entries[..n][..i] == entries[..i];
      RecordPrefix(entries[..n], i);
    }
  }

  /** The value of the last iteration whose outcome is `k`, if any. */
  function LastValue(entries: seq<Result<(BitString, real)>>, k: BitString): Option<real>
  {
    if entries == [] then None
    else
      var last := entries[|entries| - 1];
      if last.Ok? && last.value.0 == k then Some(last.value.1)
      else LastValue(entries[..|entries| - 1], k)
  }

  /** `LastValue` is the value of an iteration with outcome `k` that no later iteration shares, and there is none when no iteration has outcome `k`. */
  lemma {:induction false} LastValueSpec(entries: seq<Result<(BitString, real)>>, k: BitString)
    requires forall j :: 0 <= j < |entries| ==> entries[j].Ok?
    ensures LastValue(entries, k).None? ==> forall j :: 0 <= j < |entries| ==> entries[j].value.0 != k
    ensures LastValue(entries, k).Some? ==> exists j :: (
      && 0 <= j < |entries|
      && entries[j].value == (k, LastValue(entries, k).value)
      && forall l :: j < l < |entries| ==> entries[l].value.0 != k)
  {
    if entries != [] {
      var n := |entries| - 1;
      var init := entries[..n];
      assert forall j :: 0 <= j < n ==> init[j] == entries[j];
      LastValueSpec(init, k);
      if entries[n].value.0 == k {
        assert LastValue(entries, k) == Some(entries[n].value.1);
        assert entries[n].value == (k, LastValue(entries, k).value);
      } else {
        assert LastValue(entries, k) == LastValue(init, k);
        if LastValue(init, k).Some? {
          var j :| 0 <= j < n && init[j].value == (k, LastValue(init, k).value)
            && forall l :: j < l < n ==> init[l].value.0 != k;
          assert entries[j] == init[j];
        }
      }
    }
  }

  /**
   * `recombined_distribution[outcome]` holds the value of the last iteration combining to that
   * outcome (a later combination overwrites an earlier one), and there is no entry for an outcome
   * no iteration combines to.
   */
  lemma {:induction false} RecordedValue(entries: seq<Result<(BitString, real)>>, k: BitString)
    requires Record(entries).Ok?
    ensures Get(Record(entries).value, k) == LastValue(entries, k)
  {
    if entries != [] {
      var n := |entries| - 1;
      var entry := entries[n].value;
      StoreGet(Record(entries[..n]).value, entry.0, entry.1, k);
      RecordedValue(entries[..n], k);
    }
  }

  /** The outcomes recorded are distinct, as the keys of a dict are, and are those of the iterations. */
  lemma {:induction false} RecordedKeys(entries: seq<Result<(BitString, real)>>)
    requires Record(entries).Ok?
    ensures DistinctKeys(Record(entries).value)
    ensures forall k :: HasKey(Record(entries).value, k) <==> exists j :: 0 <= j < |entries| && entries[j].Ok? && entries[j].value.0 == k
  {
    RecordOk(entries);
    if entries != [] {
      var n := |entries| - 1;
      var init := entries[..n];
      assert forall j :: 0 <= j < n ==> init[j] == entries[j];
      var entry := entries[n].value;
      var prev := Record(init).value;
      RecordedKeys(init);
      StoreKeys(prev, entry.0, entry.1);
      assert Record(entries).value == Store(prev, entry.0, entry.1);
      forall k
        ensures HasKey(Record(entries).value, k) <==> exists j :: 0 <= j < |entries| && entries[j].Ok? && entries[j].value.0 == k
      {
        assert HasKey(Record(entries).value, k) <==> HasKey(prev, k) || k == entry.0;
        if HasKey(prev, k) {
          var j :| 0 <= j < n && init[j].Ok? && init[j].value.0 == k;
          assert entries[j] == init[j];
        }
        if exists j :: 0 <= j < |entries| && entries[j].Ok? && entries[j].value.0 == k {
          var j :| 0 <= j < |entries| && entries[j].Ok? && entries[j].value.0 == k;
          if j < n {
            assert init[j].value.0 == k;
          }
        }
      }
    }
  }

  /** The loop of lines 37-57 over the elements of the product. */
  function Recombined(models: Dict<FragmentKey, FragmentModel>, c: Combiner, contract: Contract, choices: seq<seq<BitString>>)
    : Result<Dict<BitString, real>>
    requires Uniform(models, choices)
  {
    Record(Entries(models, c, contract, choices))
  }

  /**
   * `recombine_fragment_models`. Errors in the source's order: `StopIteration` from the
   * contraction path, the errors of `get_outcome_combiner`, `KeyError` for no model keyed
   * `fragment_0` (the debug print of line 36), then the errors of the loop.
   */
  function Recombine(models: Dict<FragmentKey, FragmentModel>, qubitOrder: Option<seq<Qubit>>, contract: Contract)
    : (r: Result<Dict<BitString, real>>)
    requires DistinctKeys(models)
    ensures r.Ok? ==> HasKey(models, 0) && FirstBlocks(models).Ok?
    ensures r.Ok? ==> OutcomeCombiner(ModelFragments(models), qubitOrder).Ok?
    ensures FirstBlocks(models).Err? ==> r == Err(StopIteration)
    ensures FirstBlocks(models).Ok? && OutcomeCombiner(ModelFragments(models), qubitOrder).Err? ==>
      r == Err(OutcomeCombiner(ModelFragments(models), qubitOrder).error)
    ensures FirstBlocks(models).Ok? && OutcomeCombiner(ModelFragments(models), qubitOrder).Ok? && !HasKey(models, 0) ==>
      r == Err(KeyError)
  {
    var _ :- FirstBlocks(models);
    var combiner :- OutcomeCombiner(ModelFragments(models), qubitOrder);
    if !HasKey(models, 0) then Err(KeyError)
    else
      ProductChoices(models);
      Recombined(models, combiner, contract, Product(Options(models)))
  }

  /** Every element of the product picks one substring per model. */
  lemma {:induction false} ProductChoices(models: Dict<FragmentKey, FragmentModel>)
    ensures Uniform(models, Product(Options(models)))
    ensures forall j, i :: 0 <= j < |Product(Options(models))| && 0 <= i < |models| ==>
      Product(Options(models))[j][i] in models[i].1.Substrings()
  {
    var choices := Product(Options(models));
    forall j | 0 <= j < |choices|
      ensures |choices[j]| == |models|
      ensures forall i :: 0 <= i < |models| ==> choices[j][i] in models[i].1.Substrings()
    {
      ProductMember(Options(models), choices[j]);
    }
  }

  /** The tensors of an element of the product are the blocks of the chosen substrings, which always exist. */
  lemma {:induction false} ChosenTensors(models: Dict<FragmentKey, FragmentModel>, choice: seq<BitString>)
    requires |choice| == |models| && forall i :: 0 <= i < |models| ==> choice[i] in models[i].1.Substrings()
    ensures Tensors(models, choice).Ok?
    ensures forall i :: 0 <= i < |models| ==> (choice[i], Tensors(models, choice).value[i]) in models[i].1.data
  {
    forall i | 0 <= i < |models|
      ensures (choice[i], Tensors(models, choice).value[i]) in models[i].1.data
    {
      var t := Tensors(models, choice).value[i];
      assert models[i].1.Block(choice[i]) == Ok(t);
      var k :| 0 <= k < |models[i].1.data| && models[i].1.data[k] == (choice[i], t);
      assert models[i].1.data[k] in models[i].1.data;
    }
  }

  /** `num_blocks` multiplied over the models. */
  function BlockCount(models: Dict<FragmentKey, FragmentModel>): nat
  {
    if models == [] then 1 else models[0].1.NumBlocks() * BlockCount(models[1..])
  }

  /** The loop runs once per combination of blocks: the product of the models' `num_blocks`. */
  lemma {:induction false} IterationCount(models: Dict<FragmentKey, FragmentModel>)
    ensures |Product(Options(models))| == BlockCount(models)
  {
    ProductLength(Options(models));
    OptionsChoices(models);
  }

  lemma {:induction false} OptionsChoices(models: Dict<FragmentKey, FragmentModel>)
    ensures NumChoices(Options(models)) == BlockCount(models)
  {
    if models != [] {
      OptionsChoices(models[1..]);
      assert Options(models)[1..] == Options(models[1..]);
    }
  }

  /** Every choice of one substring per model is visited by the loop. */
  lemma {:induction false} EveryChoiceVisited(models: Dict<FragmentKey, FragmentModel>, choice: seq<BitString>)
    requires |choice| == |models| && forall i :: 0 <= i < |models| ==> choice[i] in models[i].1.Substrings()
    ensures choice in Product(Options(models))
  {
    ProductComplete(Options(models), choice);
  }

  /** An element of the product whose substrings have the lengths of the circuit outputs has an entry. */
  lemma {:induction false} EntryWellSized(models: Dict<FragmentKey, FragmentModel>, qubitOrder: Option<seq<Qubit>>, contract: Contract,
                       choice: seq<BitString>)
    requires DistinctKeys(models) && OutcomeCombiner(ModelFragments(models), qubitOrder).Ok?
    requires |choice| == |models| && forall i :: 0 <= i < |models| ==> choice[i] in models[i].1.Substrings()
    requires forall i :: 0 <= i < |models| ==> |choice[i]| == |models[i].1.fragment.circuitOutputs|
    ensures Entry(models, OutcomeCombiner(ModelFragments(models), qubitOrder).value, contract, choice).Ok?
  {
    var fragments := ModelFragments(models);
    var substrings := Zipped(Keys(models), choice);
    forall i | 0 <= i < |fragments|
      ensures fragments[i].0 in substrings && |substrings[fragments[i].0]| == |fragments[i].1.circuitOutputs|
    {
      ZippedAt(Keys(models), choice, i);
    }
    CombineWellSized(fragments, qubitOrder, substrings);
    ChosenTensors(models, choice);
  }

  /**
   * When every substring of every model has the length of its fragment's circuit outputs, the
   * recombination cannot fail past its first checks: every combination has an entry.
   */
  lemma {:induction false} RecombineWellSized(models: Dict<FragmentKey, FragmentModel>, qubitOrder: Option<seq<Qubit>>, contract: Contract)
    requires DistinctKeys(models) && HasKey(models, 0)
    requires FirstBlocks(models).Ok? && OutcomeCombiner(ModelFragments(models), qubitOrder).Ok?
    requires forall i, s :: 0 <= i < |models| && s in models[i].1.Substrings() ==> |s| == |models[i].1.fragment.circuitOutputs|
    ensures Recombine(models, qubitOrder, contract).Ok?
  {
    var c := OutcomeCombiner(ModelFragments(models), qubitOrder).value;
    var choices := Product(Options(models));
    ProductChoices(models);
    var entries := Entries(models, c, contract, choices);
    forall j | 0 <= j < |choices|
      ensures entries[j].Ok?
    {
      EntryWellSized(models, qubitOrder, contract, choices[j]);
    }
    RecordOk(entries);
  }

  // ---------------------------------------------------------------------------------------------
  // The loop of the source.

  /** Lines 37-57, one iteration per element of the product, with the dict filled entry by entry. */
  method RecordAll(models: Dict<FragmentKey, FragmentModel>, c: Combiner, contract: Contract, choices: seq<seq<BitString>>)
    returns (r: Result<Dict<BitString, real>>)
    requires Uniform(models, choices)
    ensures r == Recombined(models, c, contract, choices)
  {
    var keys := Keys(models);
    ghost var entries := Entries(models, c, contract, choices);
    var distribution: Dict<BitString, real> := [];
    for j := 0 to |choices|
      invariant Record(entries[..j]) == Ok(distribution)
    {
      RecordNext(entries, j, distribution);
      var combined := Combine(c, Zipped(keys, choices[j]));
      if combined.Err? {
        assert entries[j] == Err(combined.error);
        RecordPrefix(entries, j + 1);
        return Err(combined.error);
      }
      var tensors := Tensors(models, choices[j]);
      if tensors.Err? {
        assert entries[j] == Err(tensors.error);
        RecordPrefix(entries, j + 1);
        return Err(tensors.error);
      }
      assert entries[j] == Ok((combined.value, contract(tensors.value).re));
      distribution := Store(distribution, combined.value, contract(tensors.value).re);
    }
    assert entries[..|choices|] == entries;
    return Ok(distribution);
  }

  /** `recombine_fragment_models`, proved to compute `Recombine`. */
  method RecombineFragmentModels(models: Dict<FragmentKey, FragmentModel>, qubitOrder: Option<seq<Qubit>>, contract: Contract)
    returns (r: Result<Dict<BitString, real>>)
    requires DistinctKeys(models)
    ensures r == Recombine(models, qubitOrder, contract)
  {
    var first := FirstBlocks(models);
    if first.Err? {
      return Err(first.error);
    }
    var combiner := GetOutcomeCombiner(ModelFragments(models), qubitOrder);
    if combiner.Err? {
      return Err(combiner.error);
    }
    if !HasKey(models, 0) {
      return Err(KeyError);
    }
    ProductChoices(models);
    r := RecordAll(models, combiner.value, contract, Product(Options(models)));
  }
}
