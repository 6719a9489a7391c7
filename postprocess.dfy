/**
 * Recombination bookkeeping (`get_outcome_combiner`): where each qubit of the uncut circuit ends
 * up once it is routed through the cuts, and the permutation that turns the concatenated outcomes
 * of the fragments into an outcome of the uncut circuit.
 */
module PostProcess {
  import opened Common
  import opened Sorting
  import opened Circuits
  import opened Fragments
  import opened Containers

  // ---------------------------------------------------------------------------------------------
  // Lines 48-54: the circuit qubits and the two cut maps.

  /**
   * `fragment.circuit.all_qubits() - set(fragment.quantum_inputs)`. A Python set has no order of
   * its own; the model lists it in cirq's qubit order.
   */
  function OwnQubits(f: Fragment): (r: seq<Qubit>)
    ensures Distinct(r)
    ensures forall q :: q in r <==> q in AllQubits(f.circuit) && q !in Keys(f.quantumInputs)
  {
    var keep := AllQubits(f.circuit) - Elems(Keys(f.quantumInputs));
    var s := Filter(QubitSeq(f.circuit), keep);
    var r := SortedQubits(s);
    assert forall q :: q in r <==> q in Elems(s);
    r
  }

  /** `circuit_qubits`: the qubits of each fragment that do not come in from a cut, fragment by fragment. */
  function CircuitQubits(fragments: Dict<FragmentKey, Fragment>): seq<Qubit>
  {
    if fragments == [] then []
    else CircuitQubits(fragments[..|fragments| - 1]) + OwnQubits(fragments[|fragments| - 1].1)
  }

  /** `q` is a qubit of `f` that does not come in from a cut. */
  predicate Owns(f: Fragment, q: Qubit)
  {
    q in AllQubits(f.circuit) && q !in Keys(f.quantumInputs)
  }

  /** A circuit qubit is a qubit of some fragment that is not one of that fragment's quantum inputs. */
  lemma {:induction false} CircuitQubitsMember(fragments: Dict<FragmentKey, Fragment>, q: Qubit)
    ensures q in CircuitQubits(fragments) <==> exists i :: 0 <= i < |fragments| && Owns(fragments[i].1, q)
  {
    if fragments != [] {
      var n := |fragments| - 1;
      var init := fragments[..n];
      var last := OwnQubits(fragments[n].1);
      CircuitQubitsMember(init, q);
      assert CircuitQubits(fragments) == CircuitQubits(init) + last;
      assert q in last <==> Owns(fragments[n].1, q);
      if q in CircuitQubits(init) {
        var i :| 0 <= i < n && Owns(init[i].1, q);
        assert init[i] == fragments[i];
      }
      if exists i :: 0 <= i < |fragments| && Owns(fragments[i].1, q) {
        var i :| 0 <= i < |fragments| && Owns(fragments[i].1, q);
        if i < n {
          assert init[i] == fragments[i];
        }
      }
    }
  }

  /** A dict as a map; a later entry for the same key wins, as in `dict.update`. */
  function AsMap(d: Dict<Qubit, CutName>): (r: map<Qubit, CutName>)
    ensures forall k :: k in r <==> HasKey(d, k)
  {
    if d == [] then map[]
    else
      assert Keys(d) == Keys(d[..|d| - 1]) + [d[|d| - 1].0];
      AsMap(d[..|d| - 1])[d[|d| - 1].0 := d[|d| - 1].1]
  }

  /** With distinct keys the map holds what the dict holds. */
  lemma {:induction false} AsMapGet(d: Dict<Qubit, CutName>, k: Qubit)
    requires DistinctKeys(d) && HasKey(d, k)
    ensures Get(d, k) == Some(AsMap(d)[k])
  {
    var n := |d| - 1;
    assert d == d[..n] + [d[n]];
    GetSnoc(d[..n], d[n].0, d[n].1, k);
    DistinctKeysInit(d);
    if k != d[n].0 {
      assert Keys(d) == Keys(d[..n]) + [d[n].0];
      AsMapGet(d[..n], k);
    }
  }

  /** `{cut: qubit for qubit, cut in quantum_inputs.items()}`. */
  function Inverted(d: Dict<Qubit, CutName>): (r: map<CutName, Qubit>)
    ensures forall c :: c in r <==> c in Values(d)
  {
    if d == [] then map[]
    else
      assert Values(d) == Values(d[..|d| - 1]) + [d[|d| - 1].1];
      Inverted(d[..|d| - 1])[d[|d| - 1].1 := d[|d| - 1].0]
  }

  /** Looking a cut up in the inverted dict gives a qubit that the dict sends to that cut. */
  lemma {:induction false} InvertedAt(d: Dict<Qubit, CutName>, c: CutName)
    requires c in Values(d)
    ensures exists i :: 0 <= i < |d| && d[i] == (Inverted(d)[c], c)
  {
    var n := |d| - 1;
    if d[n].1 != c {
      assert Values(d) == Values(d[..n]) + [d[n].1];
      InvertedAt(d[..n], c);
      var i :| 0 <= i < n && d[..n][i] == (Inverted(d[..n])[c], c);
      assert d[i] == d[..n][i];
    }
  }

  /** `qubit_to_cut`: every fragment's quantum outputs, later fragments winning. */
  function QubitToCut(fragments: Dict<FragmentKey, Fragment>): (r: map<Qubit, CutName>)
    ensures forall q :: q in r <==> exists i :: 0 <= i < |fragments| && HasKey(fragments[i].1.quantumOutputs, q)
  {
    if fragments == [] then map[]
    else
      var n := |fragments| - 1;
      var prev := QubitToCut(fragments[..n]);
      assert forall i :: 0 <= i < n ==> fragments[..n][i] == fragments[i];
      prev + AsMap(fragments[n].1.quantumOutputs)
  }

  /** `cut_to_qubit`: every fragment's quantum inputs, from cut to qubit, later fragments winning. */
  function CutToQubit(fragments: Dict<FragmentKey, Fragment>): (r: map<CutName, Qubit>)
    ensures forall c :: c in r <==> exists i :: 0 <= i < |fragments| && c in Values(fragments[i].1.quantumInputs)
  {
    if fragments == [] then map[]
    else
      var n := |fragments| - 1;
      var prev := CutToQubit(fragments[..n]);
      assert forall i :: 0 <= i < n ==> fragments[..n][i] == fragments[i];
      prev + Inverted(fragments[n].1.quantumInputs)
  }

  /** Lines 48-54, with the loop of the source. */
  method CollectCuts(fragments: Dict<FragmentKey, Fragment>)
    returns (circuitQubits: seq<Qubit>, qubitToCut: map<Qubit, CutName>, cutToQubit: map<CutName, Qubit>)
    ensures circuitQubits == CircuitQubits(fragments)
    ensures qubitToCut == QubitToCut(fragments)
    ensures cutToQubit == CutToQubit(fragments)
  {
    circuitQubits, qubitToCut, cutToQubit := [], map[], map[];
    for i := 0 to |fragments|
      invariant circuitQubits == CircuitQubits(fragments[..i])
      invariant qubitToCut == QubitToCut(fragments[..i])
      invariant cutToQubit == CutToQubit(fragments[..i])
    {
      var fragment := fragments[i].1;
      assert fragments[..i + 1][..i] == fragments[..i];
      circuitQubits := circuitQubits + OwnQubits(fragment);
      qubitToCut := qubitToCut + AsMap(fragment.quantumOutputs);
      cutToQubit := cutToQubit + Inverted(fragment.quantumInputs);
    }
    assert fragments[..|fragments|] == fragments;
  }

  // ---------------------------------------------------------------------------------------------
  // Lines 57-61: routing a qubit through the cuts.

  /** The wire of `q` continues through a cut: `q` feeds a cut whose downstream qubit is known. */
  predicate CanHop(q: Qubit, qubitToCut: map<Qubit, CutName>, cutToQubit: map<CutName, Qubit>)
  {
    q in qubitToCut && qubitToCut[q] in cutToQubit
  }

  /** One hop along the wire, staying put where the wire does not continue. */
  function Next(q: Qubit, qubitToCut: map<Qubit, CutName>, cutToQubit: map<CutName, Qubit>): Qubit
  {
    if CanHop(q, qubitToCut, cutToQubit) then cutToQubit[qubitToCut[q]] else q
  }

  /** `n` hops along the wire of `q`. */
  function Walk(q: Qubit, qubitToCut: map<Qubit, CutName>, cutToQubit: map<CutName, Qubit>, n: nat): Qubit
    decreases n
  {
    if n == 0 then q else Walk(Next(q, qubitToCut, cutToQubit), qubitToCut, cutToQubit, n - 1)
  }

  /**
   * The `while` loop of line 60 for one qubit, allowed `fuel` hops: `KeyError` when a cut has no
   * downstream qubit, `NonTermination` when the hops run out.
   */
  function Route(q: Qubit, qubitToCut: map<Qubit, CutName>, cutToQubit: map<CutName, Qubit>, fuel: nat): (r: Result<Qubit>)
    ensures r.Ok? ==> r.value !in qubitToCut
    ensures r.Err? ==> r.error == KeyError || r.error == NonTermination
    decreases fuel
  {
    if q !in qubitToCut then Ok(q)
    else if qubitToCut[q] !in cutToQubit then Err(KeyError)
    else if fuel == 0 then Err(NonTermination)
    else Route(cutToQubit[qubitToCut[q]], qubitToCut, cutToQubit, fuel - 1)
  }

  /** The hops the loop is allowed: one per qubit that feeds a cut. */
  function Fuel(qubitToCut: map<Qubit, CutName>): nat
  {
    |qubitToCut|
  }

  /** A routed qubit is the end of the wire: some number of hops from the start, and feeding no cut. */
  lemma {:induction false} RouteReaches(q: Qubit, qubitToCut: map<Qubit, CutName>, cutToQubit: map<CutName, Qubit>, fuel: nat)
    requires Route(q, qubitToCut, cutToQubit, fuel).Ok?
    ensures var f := Route(q, qubitToCut, cutToQubit, fuel).value;
      f !in qubitToCut && exists n: nat :: n <= fuel && Walk(q, qubitToCut, cutToQubit, n) == f
    decreases fuel
  {
    if q in qubitToCut {
      var next := Next(q, qubitToCut, cutToQubit);
      RouteReaches(next, qubitToCut, cutToQubit, fuel - 1);
      var n: nat :| n <= fuel - 1 && Walk(next, qubitToCut, cutToQubit, n) == Route(q, qubitToCut, cutToQubit, fuel).value;
      assert Walk(q, qubitToCut, cutToQubit, n + 1) == Walk(next, qubitToCut, cutToQubit, n);
    } else {
      assert Walk(q, qubitToCut, cutToQubit, 0) == q;
    }
  }

  /** A route that ends (in a qubit or an error) ends the same way with more fuel. */
  lemma {:induction false} RouteMoreFuel(q: Qubit, qubitToCut: map<Qubit, CutName>, cutToQubit: map<CutName, Qubit>,
                                         fuel: nat, more: nat)
    requires Route(q, qubitToCut, cutToQubit, fuel) != Err(NonTermination) && fuel <= more
    ensures Route(q, qubitToCut, cutToQubit, more) == Route(q, qubitToCut, cutToQubit, fuel)
    decreases fuel
  {
    if CanHop(q, qubitToCut, cutToQubit) {
      RouteMoreFuel(cutToQubit[qubitToCut[q]], qubitToCut, cutToQubit, fuel - 1, more - 1);
    }
  }

  lemma {:induction false} WalkAdd(q: Qubit, qubitToCut: map<Qubit, CutName>, cutToQubit: map<CutName, Qubit>, a: nat, b: nat)
    ensures Walk(q, qubitToCut, cutToQubit, a + b) == Walk(Walk(q, qubitToCut, cutToQubit, a), qubitToCut, cutToQubit, b)
    decreases a
  {
    if a > 0 {
      WalkAdd(Next(q, qubitToCut, cutToQubit), qubitToCut, cutToQubit, a - 1, b);
    }
  }

  /** Running out of fuel means every qubit up to the fuel continues through a cut. */
  lemma {:induction false} OutOfFuelHops(q: Qubit, qubitToCut: map<Qubit, CutName>, cutToQubit: map<CutName, Qubit>, fuel: nat, k: nat)
    requires Route(q, qubitToCut, cutToQubit, fuel) == Err(NonTermination) && k <= fuel
    ensures CanHop(Walk(q, qubitToCut, cutToQubit, k), qubitToCut, cutToQubit)
    decreases k
  {
    if k > 0 {
      OutOfFuelHops(Next(q, qubitToCut, cutToQubit), qubitToCut, cutToQubit, fuel - 1, k - 1);
    }
  }

  lemma {:induction false} DistinctCard<T>(s: seq<T>)
    requires Distinct(s)
    ensures |Elems(s)| == |s|
  {
    if s != [] {
      var init := s[..|s| - 1];
      DistinctCard(init);
      assert Elems(s) == Elems(init) + {s[|s| - 1]} by {
        InitLast(s);
      }
      assert s[|s| - 1] !in Elems(init);
    }
  }

  lemma {:induction false} SubsetCard<T>(a: set<T>, b: set<T>)
    requires a <= b
    ensures |a| <= |b|
    decreases |a|
  {
    if a != {} {
      var x :| x in a;
      SubsetCard(a - {x}, b - {x});
    }
  }

  /** More than `|keys|` elements taken from `keys` must repeat one. */
  lemma {:induction false} Pigeonhole<T>(s: seq<T>, keys: set<T>)
    requires |s| > |keys| && forall i :: 0 <= i < |s| ==> s[i] in keys
    ensures !Distinct(s)
  {
    if Distinct(s) {
      DistinctCard(s);
      SubsetCard(Elems(s), keys);
    }
  }

  /** A wire that comes back to a qubit it has passed keeps cycling: every later qubit continues too. */
  lemma {:induction false} CycleHops(q: Qubit, qubitToCut: map<Qubit, CutName>, cutToQubit: map<CutName, Qubit>,
                                     i: nat, j: nat, k: nat)
    requires i < j
    requires Walk(q, qubitToCut, cutToQubit, i) == Walk(q, qubitToCut, cutToQubit, j)
    requires forall m: nat :: m <= j ==> CanHop(Walk(q, qubitToCut, cutToQubit, m), qubitToCut, cutToQubit)
    ensures CanHop(Walk(q, qubitToCut, cutToQubit, k), qubitToCut, cutToQubit)
    decreases k
  {
    if k > j {
      var p := j - i;
      WalkAdd(q, qubitToCut, cutToQubit, j, k - j);
      WalkAdd(q, qubitToCut, cutToQubit, i, k - j);
      assert k - p == i + (k - j);
      CycleHops(q, qubitToCut, cutToQubit, i, j, k - p);
    }
  }

  /** A wire whose every qubit continues never ends, whatever the fuel. */
  lemma {:induction false} EndlessRoute(q: Qubit, qubitToCut: map<Qubit, CutName>, cutToQubit: map<CutName, Qubit>, fuel: nat)
    requires forall m: nat :: CanHop(Walk(q, qubitToCut, cutToQubit, m), qubitToCut, cutToQubit)
    ensures Route(q, qubitToCut, cutToQubit, fuel) == Err(NonTermination)
    decreases fuel
  {
    assert Walk(q, qubitToCut, cutToQubit, 0) == q;
    if fuel > 0 {
      var next := Next(q, qubitToCut, cutToQubit);
      forall m: nat | true
        ensures CanHop(Walk(next, qubitToCut, cutToQubit, m), qubitToCut, cutToQubit)
      {
        assert Walk(q, qubitToCut, cutToQubit, m + 1) == Walk(next, qubitToCut, cutToQubit, m);
      }
      EndlessRoute(next, qubitToCut, cutToQubit, fuel - 1);
    }
  }

  /**
   * One hop per qubit that feeds a cut is enough: a route that runs out of that fuel is on a
   * cycle of cuts and runs out of any fuel, so the loop of the source never ends.
   */
  lemma {:induction false} RouteFuelSuffices(q: Qubit, qubitToCut: map<Qubit, CutName>, cutToQubit: map<CutName, Qubit>, fuel: nat)
    requires Route(q, qubitToCut, cutToQubit, Fuel(qubitToCut)) == Err(NonTermination)
    ensures Route(q, qubitToCut, cutToQubit, fuel) == Err(NonTermination)
  {
    var n := Fuel(qubitToCut);
    var walk := seq(n + 1, k requires 0 <= k <= n => Walk(q, qubitToCut, cutToQubit, k));
    forall k | 0 <= k <= n
      ensures walk[k] in qubitToCut.Keys
    {
      OutOfFuelHops(q, qubitToCut, cutToQubit, n, k);
    }
    Pigeonhole(walk, qubitToCut.Keys);
    var i, j :| 0 <= i < j < |walk| && walk[i] == walk[j];
    forall m: nat | m <= j
      ensures CanHop(Walk(q, qubitToCut, cutToQubit, m), qubitToCut, cutToQubit)
    {
      OutOfFuelHops(q, qubitToCut, cutToQubit, n, m);
    }
    forall k: nat | true
      ensures CanHop(Walk(q, qubitToCut, cutToQubit, k), qubitToCut, cutToQubit)
    {
      CycleHops(q, qubitToCut, cutToQubit, i, j, k);
    }
    EndlessRoute(q, qubitToCut, cutToQubit, fuel);
  }

  /** `initial_to_final_qubit_map`: every circuit qubit routed to the end of its wire; the first failure stops the loop. */
  function FinalQubits(circuitQubits: seq<Qubit>, qubitToCut: map<Qubit, CutName>, cutToQubit: map<CutName, Qubit>)
    : (r: Result<map<Qubit, Qubit>>)
    ensures r.Ok? <==> forall i :: 0 <= i < |circuitQubits| ==> Route(circuitQubits[i], qubitToCut, cutToQubit, Fuel(qubitToCut)).Ok?
    ensures r.Err? ==> r.error == KeyError || r.error == NonTermination
    ensures r.Ok? ==> forall q :: q in r.value <==> q in circuitQubits
    ensures r.Ok? ==> forall q :: q in r.value ==> Route(q, qubitToCut, cutToQubit, Fuel(qubitToCut)) == Ok(r.value[q])
  {
    if circuitQubits == [] then Ok(map[])
    else
      var n := |circuitQubits| - 1;
      var q := circuitQubits[n];
      assert circuitQubits == circuitQubits[..n] + [q];
      var prev := FinalQubits(circuitQubits[..n], qubitToCut, cutToQubit);
      var last := Route(q, qubitToCut, cutToQubit, Fuel(qubitToCut));
      if prev.Err? then prev
      else if last.Err? then Err(last.error)
      else Ok(prev.value[q := last.value])
  }

  /** Once a prefix fails, the whole loop fails the same way. */
  lemma {:induction false} FinalQubitsPrefix(circuitQubits: seq<Qubit>, qubitToCut: map<Qubit, CutName>,
                                             cutToQubit: map<CutName, Qubit>, i: nat)
    requires i <= |circuitQubits| && FinalQubits(circuitQubits[..i], qubitToCut, cutToQubit).Err?
    ensures FinalQubits(circuitQubits, qubitToCut, cutToQubit) == FinalQubits(circuitQubits[..i], qubitToCut, cutToQubit)
    decreases |circuitQubits| - i
  {
    if i == |circuitQubits| {
      assert circuitQubits[..i] == circuitQubits;
    } else {
      var n := |circuitQubits| - 1;
      var init := circuitQubits[..n];
      assert init[..i] == circuitQubits[..i];
      FinalQubitsPrefix(init, qubitToCut, cutToQubit, i);
      FinalQubitsErr(circuitQubits, qubitToCut, cutToQubit);
    }
  }

  /** A failure before the last qubit is the failure of the whole loop. */
  lemma {:induction false} FinalQubitsErr(circuitQubits: seq<Qubit>, qubitToCut: map<Qubit, CutName>, cutToQubit: map<CutName, Qubit>)
    requires circuitQubits != []
    requires FinalQubits(circuitQubits[..|circuitQubits| - 1], qubitToCut, cutToQubit).Err?
    ensures FinalQubits(circuitQubits, qubitToCut, cutToQubit) == FinalQubits(circuitQubits[..|circuitQubits| - 1], qubitToCut, cutToQubit)
  {
  }

  /** Lines 59-61 for one qubit, with the `while` loop of the source and its hops counted. */
  method RouteQubit(q: Qubit, qubitToCut: map<Qubit, CutName>, cutToQubit: map<CutName, Qubit>, finals: map<Qubit, Qubit>)
    returns (r: Result<map<Qubit, Qubit>>)
    ensures var f := Route(q, qubitToCut, cutToQubit, Fuel(qubitToCut));
      r == if f.Err? then Err(f.error) else Ok(finals[q := f.value])
  {
    var m := finals[q := q];
    var fuel := Fuel(qubitToCut);
    while m[q] in qubitToCut
      invariant q in m && m == finals[q := m[q]]
      invariant Route(m[q], qubitToCut, cutToQubit, fuel) == Route(q, qubitToCut, cutToQubit, Fuel(qubitToCut))
      decreases fuel
    {
      var qubit := m[q];
      if qubitToCut[qubit] !in cutToQubit {
        return Err(KeyError);
      }
      if fuel == 0 {
        return Err(NonTermination);
      }
      m := m[q := cutToQubit[qubitToCut[qubit]]];
      fuel := fuel - 1;
    }
    return Ok(m);
  }

  /** Lines 57-61, with the loop of the source. */
  method RouteQubits(circuitQubits: seq<Qubit>, qubitToCut: map<Qubit, CutName>, cutToQubit: map<CutName, Qubit>)
    returns (r: Result<map<Qubit, Qubit>>)
    ensures r == FinalQubits(circuitQubits, qubitToCut, cutToQubit)
  {
    var finals: map<Qubit, Qubit> := map[];
    for i := 0 to |circuitQubits|
      invariant FinalQubits(circuitQubits[..i], qubitToCut, cutToQubit) == Ok(finals)
    {
      assert circuitQubits[..i + 1][..i] == circuitQubits[..i];
      var next := RouteQubit(circuitQubits[i], qubitToCut, cutToQubit, finals);
      if next.Err? {
        FinalQubitsPrefix(circuitQubits, qubitToCut, cutToQubit, i + 1);
        return next;
      }
      finals := next.value;
    }
    assert circuitQubits[..|circuitQubits|] == circuitQubits;
    return Ok(finals);
  }

  // ---------------------------------------------------------------------------------------------
  // Lines 64-85: the bit permutation and the combiner.

  /** `qubit_order`, defaulting to `sorted(circuit_qubits)` (duplicates kept, as `sorted` keeps them). */
  function Order(qubitOrder: Option<seq<Qubit>>, circuitQubits: seq<Qubit>): (r: seq<Qubit>)
    ensures qubitOrder.None? ==> SortedBy(r, QubitLe) && multiset(r) == multiset(circuitQubits)
    ensures qubitOrder.Some? ==> r == qubitOrder.value
  {
    if qubitOrder.Some? then qubitOrder.value
    else
      QubitOrder();
      InsertionSortSpec(circuitQubits, QubitLe);
      InsertionSort(circuitQubits, QubitLe)
  }

  /** `final_qubit_order`: each qubit replaced by the end of its wire; a qubit that was not routed stays. */
  function FinalOrder(order: seq<Qubit>, finals: map<Qubit, Qubit>): (r: seq<Qubit>)
    ensures |r| == |order|
    ensures forall i :: 0 <= i < |order| ==> r[i] == if order[i] in finals then finals[order[i]] else order[i]
  {
    seq(|order|, i requires 0 <= i < |order| => if order[i] in finals then finals[order[i]] else order[i])
  }

  /** `s.index(q)`: the first position of `q`, or `ValueError`. */
  function FirstIndex(s: seq<Qubit>, q: Qubit): (r: Result<nat>)
    ensures r.Ok? <==> q in s
    ensures r.Err? ==> r.error == ValueError
    ensures r.Ok? ==> r.value < |s| && s[r.value] == q && forall j :: 0 <= j < r.value ==> s[j] != q
  {
    if s == [] then Err(ValueError)
    else if s[0] == q then Ok(0)
    else match FirstIndex(s[1..], q)
      case Err(e) => Err(e)
      case Ok(k) => Ok(k + 1)
  }

  /** `bit_permutation`: for each final qubit, its first position among the concatenated circuit outputs. */
  function BitPermutation(concatenated: seq<Qubit>, finalOrder: seq<Qubit>): (r: Result<seq<nat>>)
    ensures r.Ok? <==> forall i :: 0 <= i < |finalOrder| ==> finalOrder[i] in concatenated
    ensures r.Err? ==> r.error == ValueError
    ensures r.Ok? ==> |r.value| == |finalOrder| && forall i :: 0 <= i < |finalOrder| ==>
      r.value[i] < |concatenated| && concatenated[r.value[i]] == finalOrder[i] &&
      forall j :: 0 <= j < r.value[i] ==> concatenated[j] != finalOrder[i]
  {
    if finalOrder == [] then Ok([])
    else
      var first := FirstIndex(concatenated, finalOrder[0]);
      var rest := BitPermutation(concatenated, finalOrder[1..]);
      if first.Err? then Err(first.error)
      else if rest.Err? then Err(rest.error)
      else Ok([first.value] + rest.value)
  }

  /** The circuit outputs of every fragment, in key order. */
  function Outputs(fragments: Dict<FragmentKey, Fragment>): (r: seq<seq<Qubit>>)
    ensures |r| == |fragments| && forall i :: 0 <= i < |fragments| ==> r[i] == fragments[i].1.circuitOutputs
  {
    seq(|fragments|, i requires 0 <= i < |fragments| => fragments[i].1.circuitOutputs)
  }

  /** The end of every circuit qubit's wire, from the fragments' cut maps. */
  function Routed(fragments: Dict<FragmentKey, Fragment>): Result<map<Qubit, Qubit>>
  {
    FinalQubits(CircuitQubits(fragments), QubitToCut(fragments), CutToQubit(fragments))
  }

  /** What the returned closure captures: the fragment keys, in order, and the bit permutation. */
  datatype Combiner = Combiner(fragmentKeys: seq<FragmentKey>, bitPermutation: seq<nat>)

  /**
   * `get_outcome_combiner`. Errors in the source's order: `KeyError` or `NonTermination` from
   * the routing loop, `TypeError` from `functools.reduce` over no fragments, `ValueError` from
   * `.index` for a final qubit that is no fragment's circuit output.
   */
  function OutcomeCombiner(fragments: Dict<FragmentKey, Fragment>, qubitOrder: Option<seq<Qubit>>): (r: Result<Combiner>)
    ensures fragments == [] ==> r.Err?
    ensures r.Err? ==> r.error == KeyError || r.error == NonTermination || r.error == TypeError || r.error == ValueError
    ensures Routed(fragments).Err? ==> r == Err(Routed(fragments).error)
    ensures Routed(fragments).Ok? && fragments == [] ==> r == Err(TypeError)
    ensures r.Ok? ==> fragments != [] && Routed(fragments).Ok?
    ensures r.Ok? ==>
      var finalOrder := FinalOrder(Order(qubitOrder, CircuitQubits(fragments)), Routed(fragments).value);
      forall i :: 0 <= i < |finalOrder| ==> finalOrder[i] in Concat(Outputs(fragments))
    ensures (&& fragments != [] && Routed(fragments).Ok?
             && var finalOrder := FinalOrder(Order(qubitOrder, CircuitQubits(fragments)), Routed(fragments).value);
                forall i :: 0 <= i < |finalOrder| ==> finalOrder[i] in Concat(Outputs(fragments)))
      ==> r.Ok?
    ensures r.Ok? ==> r.value.fragmentKeys == Keys(fragments)
    ensures r.Ok? ==> |r.value.bitPermutation| == |Order(qubitOrder, CircuitQubits(fragments))|
  {
    var circuitQubits := CircuitQubits(fragments);
    var finals :- Routed(fragments);
    var finalOrder := FinalOrder(Order(qubitOrder, circuitQubits), finals);
    if fragments == [] then Err(TypeError)
    else
      var permutation := BitPermutation(Concat(Outputs(fragments)), finalOrder);
      assert permutation.Ok? <==> forall i :: 0 <= i < |finalOrder| ==> finalOrder[i] in Concat(Outputs(fragments));
      if permutation.Err? then Err(permutation.error)
      else Ok(Combiner(Keys(fragments), permutation.value))
  }

  /** Lines 25-85, with the loops of the source; proved to compute `OutcomeCombiner`. */
  method GetOutcomeCombiner(fragments: Dict<FragmentKey, Fragment>, qubitOrder: Option<seq<Qubit>>)
    returns (r: Result<Combiner>)
    ensures r == OutcomeCombiner(fragments, qubitOrder)
  {
    var circuitQubits, qubitToCut, cutToQubit := CollectCuts(fragments);
    var finals := RouteQubits(circuitQubits, qubitToCut, cutToQubit);
    if finals.Err? {
      return Err(finals.error);
    }
    var order := Order(qubitOrder, circuitQubits);
    var finalOrder := FinalOrder(order, finals.value);
    if |fragments| == 0 {
      return Err(TypeError);
    }
    var permutation := BitPermutation(Concat(Outputs(fragments)), finalOrder);
    if permutation.Err? {
      return Err(permutation.error);
    }
    return Ok(Combiner(Keys(fragments), permutation.value));
  }

  /** The substrings of the fragments, in key order. */
  function Parts(keys: seq<FragmentKey>, substrings: map<FragmentKey, BitString>): (r: seq<BitString>)
    requires forall i :: 0 <= i < |keys| ==> keys[i] in substrings
    ensures |r| == |keys| && forall i :: 0 <= i < |keys| ==> r[i] == substrings[keys[i]]
  {
    seq(|keys|, i requires 0 <= i < |keys| => substrings[keys[i]])
  }

  /**
   * `outcome_combiner`: the substrings of the fragments, in key order, concatenated and read
   * through the bit permutation. `KeyError` for a fragment without a substring, `TypeError` for
   * no fragments, `IndexError` when the substrings are too short for the permutation.
   */
  function Combine(c: Combiner, substrings: map<FragmentKey, BitString>): (r: Result<BitString>)
    ensures (exists i :: 0 <= i < |c.fragmentKeys| && c.fragmentKeys[i] !in substrings) ==> r == Err(KeyError)
    ensures (forall i :: 0 <= i < |c.fragmentKeys| ==> c.fragmentKeys[i] in substrings) && c.fragmentKeys != [] ==>
      var outcome := Concat(Parts(c.fragmentKeys, substrings));
      (r.Ok? <==> forall i :: 0 <= i < |c.bitPermutation| ==> c.bitPermutation[i] < |outcome|)
    ensures r.Ok? ==> |r.value| == |c.bitPermutation|
    ensures r.Ok? ==>
      var outcome := Concat(Parts(c.fragmentKeys, substrings));
      forall i :: 0 <= i < |c.bitPermutation| ==> c.bitPermutation[i] < |outcome| && r.value[i] == outcome[c.bitPermutation[i]]
  {
    if exists i :: 0 <= i < |c.fragmentKeys| && c.fragmentKeys[i] !in substrings then Err(KeyError)
    else if c.fragmentKeys == [] then Err(TypeError)
    else
      var outcome := Concat(Parts(c.fragmentKeys, substrings));
      if exists i :: 0 <= i < |c.bitPermutation| && c.bitPermutation[i] >= |outcome| then Err(IndexError)
      else Ok(seq(|c.bitPermutation|, i requires 0 <= i < |c.bitPermutation| => outcome[c.bitPermutation[i]]))
  }

  lemma {:induction false} TotalLengthSame<T, U>(a: seq<seq<T>>, b: seq<seq<U>>)
    requires |a| == |b| && forall i :: 0 <= i < |a| ==> |a[i]| == |b[i]|
    ensures TotalLength(a) == TotalLength(b)
  {
    if a != [] {
      TotalLengthSame(a[1..], b[1..]);
    }
  }

  /**
   * The combiner reads, for each qubit of the order, the position among the concatenated circuit
   * outputs of the final qubit of its wire (the first such position).
   */
  lemma {:induction false} OutcomeCombinerReads(fragments: Dict<FragmentKey, Fragment>, qubitOrder: Option<seq<Qubit>>)
    requires OutcomeCombiner(fragments, qubitOrder).Ok?
    ensures var circuitQubits := CircuitQubits(fragments);
      var finals := FinalQubits(circuitQubits, QubitToCut(fragments), CutToQubit(fragments));
      var outputs := Concat(Outputs(fragments));
      var permutation := OutcomeCombiner(fragments, qubitOrder).value.bitPermutation;
      && finals.Ok?
      && var finalOrder := FinalOrder(Order(qubitOrder, circuitQubits), finals.value);
      && |permutation| == |finalOrder|
      && (forall i :: 0 <= i < |finalOrder| ==>
            && permutation[i] < |outputs|
            && outputs[permutation[i]] == finalOrder[i]
            && forall j :: 0 <= j < permutation[i] ==> outputs[j] != finalOrder[i])
  {
  }

  /**
   * Substrings that each have the length of their fragment's circuit outputs always combine, into
   * one bit per qubit of the order: the bit at the position that the combiner reads.
   */
  lemma {:induction false} CombineWellSized(fragments: Dict<FragmentKey, Fragment>, qubitOrder: Option<seq<Qubit>>,
                         substrings: map<FragmentKey, BitString>)
    requires OutcomeCombiner(fragments, qubitOrder).Ok?
    requires forall i :: 0 <= i < |fragments| ==>
      fragments[i].0 in substrings && |substrings[fragments[i].0]| == |fragments[i].1.circuitOutputs|
    ensures var c := OutcomeCombiner(fragments, qubitOrder).value;
      var r := Combine(c, substrings);
      && r.Ok?
      && |r.value| == |Order(qubitOrder, CircuitQubits(fragments))|
      && |Concat(Parts(c.fragmentKeys, substrings))| == |Concat(Outputs(fragments))|
  {
    var c := OutcomeCombiner(fragments, qubitOrder).value;
    OutcomeCombinerReads(fragments, qubitOrder);
    assert forall i :: 0 <= i < |c.fragmentKeys| ==> c.fragmentKeys[i] == fragments[i].0;
    var parts := Parts(c.fragmentKeys, substrings);
    var outputs := Outputs(fragments);
    TotalLengthSame(parts, outputs);
    ConcatLength(parts);
    ConcatLength(outputs);
    assert |Concat(parts)| == |Concat(outputs)|;
    assert c.fragmentKeys != [];
    assert forall i :: 0 <= i < |c.bitPermutation| ==> c.bitPermutation[i] < |Concat(parts)|;
  }
}
