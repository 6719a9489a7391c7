/** `cut_circuit`: rename qubits downstream of each cut, then split the circuit into fragments. */
module Cutting {
  import opened Common
  import opened Sorting
  import opened Circuits
  import opened Fragments

  /** A cut `(moment_index, qubit)`: operations on `qubit` at or after `moment_index` are downstream. */
  type Cut = (nat, Qubit)

  /** Python's tuple order on cuts: by moment index, then by qubit. */
  predicate CutLe(a: Cut, b: Cut)
  {
    a.0 < b.0 || (a.0 == b.0 && QubitLe(a.1, b.1))
  }

  lemma {:induction false} CutOrder()
    ensures TotalPreorder(CutLe)
  {
    QubitOrder();
  }

  /** `sorted(cuts)`: ascending (moment_index, qubit) order, same cuts. */
  function SortCuts(cuts: seq<Cut>): (r: seq<Cut>)
    ensures SortedBy(r, CutLe) && multiset(r) == multiset(cuts)
  {
    CutOrder();
    InsertionSortSpec(cuts, CutLe);
    InsertionSort(cuts, CutLe)
  }

  /** `circuit[:k]`, clipped like a Python slice. */
  function Upstream(c: Circuit, k: nat): Circuit
  {
    if k <= |c| then c[..k] else c
  }

  /** `circuit[k:]`, clipped like a Python slice. */
  function Downstream(c: Circuit, k: nat): Circuit
  {
    if k <= |c| then c[k..] else []
  }

  /** `op.transform_qubits({old: new})`. */
  function RenameOp(op: Op, src: Qubit, dst: Qubit): (r: Op)
    ensures r.gate == op.gate && |r.qubits| == |op.qubits|
  {
    Op(op.gate, seq(|op.qubits|, i requires 0 <= i < |op.qubits| =>
      if op.qubits[i] == src then dst else op.qubits[i]))
  }

  /** The index of the first operation of `m` that addresses `q`, if any. */
  function FirstTouching(m: Moment, q: Qubit): (r: Option<nat>)
    ensures r.Some? ==> (r.value < |m| && q in m[r.value].qubits
      && forall l :: 0 <= l < r.value ==> q !in m[l].qubits)
    ensures r.None? ==> forall l :: 0 <= l < |m| ==> q !in m[l].qubits
  {
    if m == [] then None
    else if q in m[0].qubits then Some(0)
    else match FirstTouching(m[1..], q)
      case None => None
      case Some(j) => Some(j + 1)
  }

  /** A planned replacement `(moment_index, old_op, new_op)`. */
  type Replacement = (nat, Op, Op)

  /** The replacements the scan collects from moment `i` on: the first operation on `src` per moment. */
  function ReplacementsFrom(c: Circuit, i: nat, src: Qubit, dst: Qubit): seq<Replacement>
    decreases |c| - i
  {
    if i >= |c| then []
    else
      var here := match FirstTouching(c[i], src)
        case None => []
        case Some(j) => [(i, c[i][j], RenameOp(c[i][j], src, dst))];
      here + ReplacementsFrom(c, i + 1, src, dst)
  }

  /** `Moment(new_op if op == old_op else op for op in moment)`. */
  function ReplaceInMoment(m: Moment, oldOp: Op, newOp: Op): (r: Moment)
    ensures |r| == |m| && forall j :: 0 <= j < |m| ==> r[j] == if m[j] == oldOp then newOp else m[j]
  {
    seq(|m|, j requires 0 <= j < |m| => if m[j] == oldOp then newOp else m[j])
  }

  /** `circuit.batch_replace(replacements)`; a replacement outside the circuit is ignored. */
  function BatchReplace(c: Circuit, reps: seq<Replacement>): (r: Circuit)
    ensures |r| == |c|
    decreases |reps|
  {
    if reps == [] then c
    else
      var (i, oldOp, newOp) := reps[0];
      var c' := if i < |c| then c[i := ReplaceInMoment(c[i], oldOp, newOp)] else c;
      BatchReplace(c', reps[1..])
  }

  /** What the rename does to one operation at or after the cut. */
  function Renamed(op: Op, src: Qubit, dst: Qubit): Op
  {
    if src in op.qubits then RenameOp(op, src, dst) else op
  }

  lemma {:induction false} ReplacementsFromStart(c: Circuit, i: nat, src: Qubit, dst: Qubit)
    ensures forall t :: 0 <= t < |ReplacementsFrom(c, i, src, dst)| ==>
      i <= ReplacementsFrom(c, i, src, dst)[t].0 < |c|
    decreases |c| - i
  {
    if i < |c| {
      ReplacementsFromStart(c, i + 1, src, dst);
    }
  }

  /** Every operation of a moment renamed as the cut requires. */
  function RenameMoment(m: Moment, src: Qubit, dst: Qubit): (r: Moment)
    ensures |r| == |m| && forall j :: 0 <= j < |m| ==> r[j] == Renamed(m[j], src, dst)
  {
    seq(|m|, j requires 0 <= j < |m| => Renamed(m[j], src, dst))
  }

  /** In a valid moment, replacing the first operation on `src` renames every operation on `src`. */
  lemma {:induction false} ReplaceFirstTouching(m: Moment, src: Qubit, dst: Qubit)
    requires ValidMoment(m)
    ensures match FirstTouching(m, src)
      case None => m == RenameMoment(m, src, dst)
      case Some(j) => ReplaceInMoment(m, m[j], RenameOp(m[j], src, dst)) == RenameMoment(m, src, dst)
  {
    match FirstTouching(m, src)
    case None =>
    case Some(j) =>
      forall l | 0 <= l < |m| && l != j
        ensures m[l] != m[j] && src !in m[l].qubits
      {
      }
  }

  /**
   * Applying the collected replacements to a circuit that still agrees with `c0` from moment `i` on
   * renames, in every moment from `i` on, the operation that addresses `src`, and nothing else.
   */
  lemma {:induction false} BatchReplaceFrom(c0: Circuit, c: Circuit, i: nat, src: Qubit, dst: Qubit)
    requires ValidCircuit(c0) && |c| == |c0|
    requires forall m :: i <= m < |c0| ==> c[m] == c0[m]
    ensures var r := BatchReplace(c, ReplacementsFrom(c0, i, src, dst));
      forall m :: 0 <= m < |c| ==> r[m] == if m < i then c[m] else RenameMoment(c0[m], src, dst)
  {
    forall m | 0 <= m < |c|
      ensures BatchReplace(c, ReplacementsFrom(c0, i, src, dst))[m] == if m < i then c[m] else RenameMoment(c0[m], src, dst)
    {
      BatchReplaceFromAt(c0, c, i, m, src, dst);
    }
  }

  /** `BatchReplaceFrom` at one moment `m`, by induction on the first moment `i` still to scan. */
  lemma {:induction false} BatchReplaceFromAt(c0: Circuit, c: Circuit, i: nat, m: nat, src: Qubit, dst: Qubit)
    requires ValidCircuit(c0) && |c| == |c0| && m < |c0|
    requires forall l :: i <= l < |c0| ==> c[l] == c0[l]
    ensures BatchReplace(c, ReplacementsFrom(c0, i, src, dst))[m] == if m < i then c[m] else RenameMoment(c0[m], src, dst)
    decreases |c0| - i
  {
    if i < |c0| {
      var c' := c[i := RenameMoment(c0[i], src, dst)];
      BatchReplaceStep(c0, c, i, src, dst);
      BatchReplaceFromAt(c0, c', i + 1, m, src, dst);
    } else {
      assert ReplacementsFrom(c0, i, src, dst) == [];
    }
  }

  /** The replacements planned for moment `i` rename that moment; the rest are applied after. */
  lemma {:induction false} BatchReplaceStep(c0: Circuit, c: Circuit, i: nat, src: Qubit, dst: Qubit)
    requires ValidCircuit(c0) && |c| == |c0| && i < |c0| && c[i] == c0[i]
    ensures BatchReplace(c, ReplacementsFrom(c0, i, src, dst))
      == BatchReplace(c[i := RenameMoment(c0[i], src, dst)], ReplacementsFrom(c0, i + 1, src, dst))
  {
    var rest := ReplacementsFrom(c0, i + 1, src, dst);
    ReplaceFirstTouching(c0[i], src, dst);
    match FirstTouching(c0[i], src) {
      case None =>
        assert ReplacementsFrom(c0, i, src, dst) == rest;
        assert c[i := RenameMoment(c0[i], src, dst)] == c;
      case Some(j) =>
        var reps := ReplacementsFrom(c0, i, src, dst);
        assert reps == [(i, c0[i][j], RenameOp(c0[i][j], src, dst))] + rest;
        assert reps[1..] == rest;
    }
  }

  /**
   * The rename at a cut at moment `k`: every operation at moment `k` or later that addressed `src`
   * addresses `dst` there instead, and every other operation is unchanged; in a valid circuit at
   * most one operation per moment is rewritten.
   */
  lemma {:induction false} RenameDownstream(c: Circuit, k: nat, src: Qubit, dst: Qubit)
    requires ValidCircuit(c)
    ensures var r := BatchReplace(c, ReplacementsFrom(c, k, src, dst));
      && |r| == |c|
      && (forall m :: 0 <= m < |c| && m < k ==> r[m] == c[m])
      && (forall m :: k <= m < |c| ==> (|r[m]| == |c[m]|
            && forall j :: 0 <= j < |c[m]| ==> r[m][j] == Renamed(c[m][j], src, dst)))
      && (forall m, j1, j2 :: 0 <= m < |c| && 0 <= j1 < j2 < |c[m]| && src in c[m][j1].qubits
            ==> src !in c[m][j2].qubits)
  {
    BatchReplaceFrom(c, c, k, src, dst);
  }

  /** The scan finds nothing exactly when no operation at or after moment `k` addresses `src`. */
  lemma {:induction false} ReplacementsEmpty(c: Circuit, i: nat, src: Qubit, dst: Qubit)
    ensures ReplacementsFrom(c, i, src, dst) == [] <==> src !in AllQubits(Downstream(c, i))
    decreases |c| - i
  {
    if i < |c| {
      ReplacementsEmpty(c, i + 1, src, dst);
      var d := Downstream(c, i);
      assert d == [c[i]] + Downstream(c, i + 1);
      assert QubitSeq(d) == MomentQubits(c[i]) + QubitSeq(Downstream(c, i + 1));
      MomentQubitsMember(c[i], src);
    }
  }

  /** The circuit after a non-trivial cut at moment `k`: moments from `k` on have `src` renamed. */
  function RenameFrom(c: Circuit, k: nat, src: Qubit, dst: Qubit): (r: Circuit)
    ensures |r| == |c|
  {
    seq(|c|, m requires 0 <= m < |c| => if m < k then c[m] else RenameMoment(c[m], src, dst))
  }

  lemma {:induction false} BatchReplaceIsRename(c: Circuit, k: nat, src: Qubit, dst: Qubit)
    requires ValidCircuit(c)
    ensures BatchReplace(c, ReplacementsFrom(c, k, src, dst)) == RenameFrom(c, k, src, dst)
  {
    BatchReplaceFrom(c, c, k, src, dst);
  }

  lemma {:induction false} RenameOpQubits(op: Op, src: Qubit, dst: Qubit, q: Qubit)
    ensures q in Renamed(op, src, dst).qubits ==> q == dst || (q != src && q in op.qubits)
    ensures q in op.qubits && q != src ==> q in Renamed(op, src, dst).qubits
  {
    if src in op.qubits && q in op.qubits && q != src {
      var i :| 0 <= i < |op.qubits| && op.qubits[i] == q;
      assert RenameOp(op, src, dst).qubits[i] == q;
    }
  }

  /** Renaming a moment only trades `src` for `dst`. */
  lemma {:induction false} RenameMomentQubits(m: Moment, src: Qubit, dst: Qubit, q: Qubit)
    ensures q in MomentQubits(RenameMoment(m, src, dst)) ==> q == dst || (q != src && q in MomentQubits(m))
    ensures q in MomentQubits(m) && q != src ==> q in MomentQubits(RenameMoment(m, src, dst))
  {
    var r := RenameMoment(m, src, dst);
    MomentQubitsMember(m, q);
    MomentQubitsMember(r, q);
    if q in MomentQubits(r) {
      var j :| 0 <= j < |r| && q in r[j].qubits;
      RenameOpQubits(m[j], src, dst, q);
    }
    if q in MomentQubits(m) && q != src {
      var j :| 0 <= j < |m| && q in m[j].qubits;
      RenameOpQubits(m[j], src, dst, q);
    }
  }

  /** Renaming to a qubit the moment does not use keeps the moment valid. */
  lemma {:induction false} RenameMomentValid(m: Moment, src: Qubit, dst: Qubit)
    requires ValidMoment(m) && dst !in MomentQubits(m)
    ensures ValidMoment(RenameMoment(m, src, dst))
  {
    var r := RenameMoment(m, src, dst);
    MomentQubitsMember(m, dst);
    forall j | 0 <= j < |r|
      ensures Distinct(r[j].qubits)
    {
      if src in m[j].qubits {
        assert dst !in m[j].qubits;
      }
    }
    forall k, l, q | 0 <= k < l < |r| && q in r[k].qubits
      ensures q !in r[l].qubits
    {
      RenameOpQubits(m[k], src, dst, q);
      RenameOpQubits(m[l], src, dst, q);
      if q == dst {
        assert src in m[k].qubits;
        assert src !in m[l].qubits;
      }
    }
  }

  // ---------------------------------------------------------------------------------------------
  // The cut loop.

  /** The loop state of `cut_circuit`: the circuit so far, the two cut maps, the routing map, `cut_index`. */
  datatype CutState = CutState(
    circuit: Circuit,
    quantumInputs: Dict<Qubit, CutName>,
    quantumOutputs: Dict<Qubit, CutName>,
    route: map<Qubit, Qubit>,
    cutIndex: nat)

  function Start(c: Circuit): CutState
  {
    CutState(c, [], [], map[], 0)
  }

  /** `initial_to_final_qubit_map.get(cut_qubit) or cut_qubit` (a qubit is never falsy). */
  function RoutedQubit(route: map<Qubit, Qubit>, q: Qubit): Qubit
  {
    if q in route then route[q] else q
  }

  /** One iteration of the cut loop. */
  function ApplyCut(st: CutState, cut: Cut): CutState
  {
    var (k, q) := cut;
    var src := RoutedQubit(st.route, q);
    var dst := CutQubit(st.cutIndex);
    var name := CutName(st.cutIndex);
    if src !in AllQubits(Upstream(st.circuit, k)) then st
    else
      var reps := ReplacementsFrom(st.circuit, k, src, dst);
      if reps == [] then st
      else CutState(
        BatchReplace(st.circuit, reps),
        Store(st.quantumInputs, dst, name),
        Store(st.quantumOutputs, src, name),
        st.route[q := dst],
        st.cutIndex + 1)
  }

  /** The loop state after the cuts in `cuts`, in that order. */
  function ApplyCuts(st: CutState, cuts: seq<Cut>): CutState
  {
    if cuts == [] then st else ApplyCut(ApplyCuts(st, cuts[..|cuts| - 1]), cuts[|cuts| - 1])
  }

  /** A cut is trivial when its routed qubit has no operation before it, or none at or after it. */
  predicate Trivial(st: CutState, cut: Cut)
  {
    var src := RoutedQubit(st.route, cut.1);
    src !in AllQubits(Upstream(st.circuit, cut.0)) || src !in AllQubits(Downstream(st.circuit, cut.0))
  }

  /**
   * A trivial cut changes nothing (circuit, maps, routing, `cut_index`); a non-trivial one renames,
   * routes the cut qubit to `cut_i`, and advances `cut_index` by one. So `cut_index` counts the
   * non-trivial cuts.
   */
  lemma {:induction false} TrivialCut(st: CutState, cut: Cut)
    ensures Trivial(st, cut) <==> ApplyCut(st, cut) == st
    ensures !Trivial(st, cut) ==>
      (&& ApplyCut(st, cut).cutIndex == st.cutIndex + 1
       && ApplyCut(st, cut).route == st.route[cut.1 := CutQubit(st.cutIndex)]
       && ApplyCut(st, cut).circuit == BatchReplace(st.circuit,
            ReplacementsFrom(st.circuit, cut.0, RoutedQubit(st.route, cut.1), CutQubit(st.cutIndex))))
  {
    ReplacementsEmpty(st.circuit, cut.0, RoutedQubit(st.route, cut.1), CutQubit(st.cutIndex));
  }

  /** `cut_0, cut_1, ...` */
  function Names(n: nat): (r: seq<CutName>)
    ensures |r| == n && forall i :: 0 <= i < n ==> r[i] == CutName(i)
  {
    seq(n, i requires 0 <= i < n => CutName(i))
  }

  /** The qubits `cut_0, cut_1, ...` */
  function CutQubits(n: nat): (r: seq<Qubit>)
    ensures |r| == n && forall i :: 0 <= i < n ==> r[i] == CutQubit(i)
  {
    seq(n, i requires 0 <= i < n => CutQubit(i))
  }

  /** The circuit handed to the cutter addresses no `cut_i` qubit. */
  predicate NoCutQubits(c: Circuit)
  {
    forall q :: q in AllQubits(c) ==> q.LineQubit?
  }

  /**
   * What holds after the cuts up to moment `last`: the circuit stays valid and uses only cut qubits
   * already named; the quantum inputs are `cut_0 .. cut_{n-1}` in order; both maps carry the names
   * `cut_0 .. cut_{n-1}` in order, each exactly once; and no quantum output is addressed at or after
   * moment `last`.
   */
  ghost predicate Inv(st: CutState, last: nat)
  {
    var n := st.cutIndex;
    && ValidCircuit(st.circuit)
    && (forall q :: q in AllQubits(st.circuit) && q.CutQubit? ==> q.index < n)
    && Keys(st.quantumInputs) == CutQubits(n)
    && Values(st.quantumInputs) == Names(n)
    && Values(st.quantumOutputs) == Names(n)
    && DistinctKeys(st.quantumOutputs)
    && (forall x :: x in Keys(st.quantumOutputs) && x.CutQubit? ==> x.index < n)
    && (forall x :: x in Keys(st.quantumOutputs) ==> x !in AllQubits(Downstream(st.circuit, last)))
  }

  lemma {:induction false} DownstreamMember(c: Circuit, k: nat, q: Qubit)
    ensures q in AllQubits(Downstream(c, k)) <==> exists i :: k <= i < |c| && q in MomentQubits(c[i])
  {
    var d := Downstream(c, k);
    AllQubitsMember(d, q);
    if q in AllQubits(d) {
      var i :| 0 <= i < |d| && q in MomentQubits(d[i]);
      assert d[i] == c[k + i];
    }
    if exists i :: k <= i < |c| && q in MomentQubits(c[i]) {
      var i :| k <= i < |c| && q in MomentQubits(c[i]);
      assert d[i - k] == c[i];
    }
  }

  lemma {:induction false} UpstreamMember(c: Circuit, k: nat, q: Qubit)
    requires q in AllQubits(Upstream(c, k))
    ensures q in AllQubits(c)
  {
    var u := Upstream(c, k);
    AllQubitsMember(u, q);
    AllQubitsMember(c, q);
    var i :| 0 <= i < |u| && q in MomentQubits(u[i]);
    assert u[i] == c[i];
  }

  /** The qubits of the renamed circuit: `dst` in place of `src` from moment `k` on. */
  lemma {:induction false} RenameFromQubits(c: Circuit, k: nat, src: Qubit, dst: Qubit, from: nat, q: Qubit)
    requires q in AllQubits(Downstream(RenameFrom(c, k, src, dst), from))
    requires k <= from
    ensures q == dst || (q != src && q in AllQubits(Downstream(c, from)))
  {
    var r := RenameFrom(c, k, src, dst);
    DownstreamMember(r, from, q);
    DownstreamMember(c, from, q);
    var i :| from <= i < |r| && q in MomentQubits(r[i]);
    RenameMomentQubits(c[i], src, dst, q);
  }

  lemma {:induction false} RenameFromAllQubits(c: Circuit, k: nat, src: Qubit, dst: Qubit, q: Qubit)
    requires q in AllQubits(RenameFrom(c, k, src, dst))
    ensures q == dst || q in AllQubits(c)
  {
    var r := RenameFrom(c, k, src, dst);
    AllQubitsMember(r, q);
    AllQubitsMember(c, q);
    var i :| 0 <= i < |r| && q in MomentQubits(r[i]);
    if i >= k {
      RenameMomentQubits(c[i], src, dst, q);
    }
  }

  lemma {:induction false} RenameFromValid(c: Circuit, k: nat, src: Qubit, dst: Qubit)
    requires ValidCircuit(c) && dst !in AllQubits(c)
    ensures ValidCircuit(RenameFrom(c, k, src, dst))
  {
    forall i | k <= i < |c|
      ensures ValidMoment(RenameMoment(c[i], src, dst))
    {
      AllQubitsMember(c, dst);
      RenameMomentValid(c[i], src, dst);
    }
  }

  lemma {:induction false} DownstreamShrinks(c: Circuit, k1: nat, k2: nat, q: Qubit)
    requires k1 <= k2 && q in AllQubits(Downstream(c, k2))
    ensures q in AllQubits(Downstream(c, k1))
  {
    DownstreamMember(c, k1, q);
    DownstreamMember(c, k2, q);
  }

  /** A trivial cut keeps the invariant, now up to its own moment. */
  lemma {:induction false} TrivialCutInv(st: CutState, cut: Cut, last: nat)
    requires Inv(st, last) && last <= cut.0 && Trivial(st, cut)
    ensures Inv(ApplyCut(st, cut), cut.0)
  {
    TrivialCut(st, cut);
    forall x | x in Keys(st.quantumOutputs)
      ensures x !in AllQubits(Downstream(st.circuit, cut.0))
    {
      if x in AllQubits(Downstream(st.circuit, cut.0)) {
        DownstreamShrinks(st.circuit, last, cut.0, x);
      }
    }
  }

  /**
   * A non-trivial cut at or after moment `last` appends `(cut_n, "cut_n")` to the quantum inputs and
   * `(routed qubit, "cut_n")` to the quantum outputs, renames downstream, and keeps the invariant.
   */
  lemma {:induction false} NontrivialCutInv(st: CutState, cut: Cut, last: nat)
    requires Inv(st, last) && last <= cut.0 && !Trivial(st, cut)
    ensures var st' := ApplyCut(st, cut);
      && st'.quantumInputs == st.quantumInputs + [(CutQubit(st.cutIndex), CutName(st.cutIndex))]
      && st'.quantumOutputs == st.quantumOutputs + [(RoutedQubit(st.route, cut.1), CutName(st.cutIndex))]
      && st'.circuit == RenameFrom(st.circuit, cut.0, RoutedQubit(st.route, cut.1), CutQubit(st.cutIndex))
      && Inv(st', cut.0)
  {
    var (k, q) := cut;
    var n := st.cutIndex;
    var src := RoutedQubit(st.route, q);
    var dst := CutQubit(n);
    var name := CutName(n);
    TrivialCut(st, cut);
    var c := st.circuit;
    var c' := RenameFrom(c, k, src, dst);
    BatchReplaceIsRename(c, k, src, dst);
    UpstreamMember(c, k, src);
    assert dst !in AllQubits(c);
    assert src != dst;
    // the cut qubit is still addressed downstream, so it is not yet a quantum output
    assert !HasKey(st.quantumOutputs, src) by {
      if src in Keys(st.quantumOutputs) {
        DownstreamShrinks(c, last, k, src);
      }
    }
    assert !HasKey(st.quantumInputs, dst);
    StoreAppend(st.quantumInputs, dst, name);
    StoreAppend(st.quantumOutputs, src, name);
    var st' := ApplyCut(st, cut);
    assert st' == CutState(c', st.quantumInputs + [(dst, name)], st.quantumOutputs + [(src, name)],
      st.route[q := dst], n + 1);
    NontrivialCircuitInv(c, k, src, n);
    NontrivialMapsInv(st.quantumInputs, st.quantumOutputs, src, n);
    forall x | x in Keys(st'.quantumOutputs)
      ensures x !in AllQubits(Downstream(c', k))
    {
      if x in AllQubits(Downstream(c', k)) {
        RenameFromQubits(c, k, src, dst, k, x);
        if x != src {
          DownstreamShrinks(c, last, k, x);
        }
      }
    }
  }

  lemma {:induction false} NontrivialCircuitInv(c: Circuit, k: nat, src: Qubit, n: nat)
    requires ValidCircuit(c) && forall q :: q in AllQubits(c) && q.CutQubit? ==> q.index < n
    ensures var c' := RenameFrom(c, k, src, CutQubit(n));
      && ValidCircuit(c')
      && forall q :: q in AllQubits(c') && q.CutQubit? ==> q.index < n + 1
  {
    var dst := CutQubit(n);
    assert dst !in AllQubits(c);
    RenameFromValid(c, k, src, dst);
    forall x | x in AllQubits(RenameFrom(c, k, src, dst)) && x.CutQubit?
      ensures x.index < n + 1
    {
      RenameFromAllQubits(c, k, src, dst, x);
    }
  }

  lemma {:induction false} NontrivialMapsInv(qin: Dict<Qubit, CutName>, qout: Dict<Qubit, CutName>, src: Qubit, n: nat)
    requires Keys(qin) == CutQubits(n) && Values(qin) == Names(n) && Values(qout) == Names(n)
    requires DistinctKeys(qout) && src !in Keys(qout)
    requires forall x :: x in Keys(qout) && x.CutQubit? ==> x.index < n
    requires src.CutQubit? ==> src.index < n
    ensures var qin' := qin + [(CutQubit(n), CutName(n))];
      var qout' := qout + [(src, CutName(n))];
      && Keys(qin') == CutQubits(n + 1) && Values(qin') == Names(n + 1) && Values(qout') == Names(n + 1)
      && Keys(qout') == Keys(qout) + [src] && DistinctKeys(qout')
      && forall x :: x in Keys(qout') && x.CutQubit? ==> x.index < n + 1
  {
    var qout' := qout + [(src, CutName(n))];
    assert Keys(qout') == Keys(qout) + [src];
  }

  /**
   * After any sorted run of cuts on a valid circuit without cut qubits, the invariant holds: in
   * particular the cut names are `cut_0 .. cut_{n-1}` without gaps, recorded once as a quantum
   * output and once as a quantum input, where `n` is the number of non-trivial cuts.
   */
  lemma {:induction false} ApplyCutsInv(c: Circuit, cuts: seq<Cut>)
    requires ValidCircuit(c) && NoCutQubits(c) && SortedBy(cuts, CutLe)
    ensures Inv(ApplyCuts(Start(c), cuts), if cuts == [] then 0 else cuts[|cuts| - 1].0)
    ensures |ApplyCuts(Start(c), cuts).circuit| == |c|
  {
    if cuts != [] {
      var init := cuts[..|cuts| - 1];
      assert SortedBy(init, CutLe);
      ApplyCutsInv(c, init);
      var last := if init == [] then 0 else init[|init| - 1].0;
      var st := ApplyCuts(Start(c), init);
      if init != [] {
        assert CutLe(init[|init| - 1], cuts[|cuts| - 1]);
      }
      TrivialCut(st, cuts[|cuts| - 1]);
      if Trivial(st, cuts[|cuts| - 1]) {
        TrivialCutInv(st, cuts[|cuts| - 1], last);
      } else {
        NontrivialCutInv(st, cuts[|cuts| - 1], last);
      }
    }
  }

  // ---------------------------------------------------------------------------------------------
  // Factorization: cirq's `factorize` splits a circuit into the parts acting on the connected
  // components of its qubits, where a multi-qubit operation connects its qubits.

  function Union(groups: seq<set<Qubit>>): set<Qubit>
  {
    if groups == [] then {} else groups[0] + Union(groups[1..])
  }

  lemma {:induction false} UnionMember(groups: seq<set<Qubit>>, q: Qubit)
    ensures q in Union(groups) <==> exists g :: g in groups && q in g
  {
    if groups != [] {
      UnionMember(groups[1..], q);
      if exists g :: g in groups && q in g {
        var g :| g in groups && q in g;
        if g != groups[0] {
          assert g in groups[1..];
        }
      }
    }
  }

  /** The groups that share no qubit with `qs`, in order. */
  function Apart(groups: seq<set<Qubit>>, qs: set<Qubit>): (r: seq<set<Qubit>>)
    ensures forall g :: g in r <==> g in groups && g !! qs
  {
    if groups == [] then []
    else if groups[0] !! qs then [groups[0]] + Apart(groups[1..], qs)
    else Apart(groups[1..], qs)
  }

  /** The union of the groups that share a qubit with `qs`. */
  function Joined(groups: seq<set<Qubit>>, qs: set<Qubit>): (r: set<Qubit>)
    ensures forall g :: g in groups && !(g !! qs) ==> g <= r
    ensures forall q :: q in r ==> exists g :: g in groups && !(g !! qs) && q in g
  {
    if groups == [] then {}
    else
      assert forall g :: g in groups ==> g == groups[0] || g in groups[1..];
      var rest := Joined(groups[1..], qs);
      if groups[0] !! qs then rest else groups[0] + rest
  }

  lemma {:induction false} ApartDistinct(groups: seq<set<Qubit>>, qs: set<Qubit>)
    requires Distinct(groups)
    ensures Distinct(Apart(groups, qs))
  {
    if groups != [] {
      ApartDistinct(groups[1..], qs);
      var rest := Apart(groups[1..], qs);
      assert groups[0] !in groups[1..];
      assert groups[0] !in rest;
      if groups[0] !! qs {
        var r := [groups[0]] + rest;
        forall i, j | 0 <= i < j < |r|
          ensures r[i] != r[j]
        {
          if i == 0 {
            assert r[j] == rest[j - 1];
          } else {
            assert r[i] == rest[i - 1] && r[j] == rest[j - 1];
          }
        }
      }
    }
  }

  /** The union-find step for one operation: its qubits and every group they touch become one group. */
  function Merge(groups: seq<set<Qubit>>, qs: set<Qubit>): seq<set<Qubit>>
  {
    if qs == {} then groups else Apart(groups, qs) + [qs + Joined(groups, qs)]
  }

  /** Non-empty, pairwise disjoint groups, each listed once. */
  predicate Partition(groups: seq<set<Qubit>>)
  {
    && Distinct(groups)
    && {} !in groups
    && forall g1, g2 :: g1 in groups && g2 in groups && g1 != g2 ==> g1 !! g2
  }

  /** Every qubit addressed by the operations `ops`. */
  function OpsQubits(ops: seq<Op>): set<Qubit>
  {
    set t, q | 0 <= t < |ops| && q in ops[t].qubits :: q
  }

  lemma {:induction false} MergeUnion(groups: seq<set<Qubit>>, qs: set<Qubit>)
    ensures Union(Merge(groups, qs)) == Union(groups) + qs
  {
    if qs != {} {
      var r := Merge(groups, qs);
      forall q
        ensures q in Union(r) <==> q in Union(groups) + qs
      {
        UnionMember(r, q);
        UnionMember(groups, q);
        if q in Union(groups) {
          var g :| g in groups && q in g;
          if g !! qs {
            assert g in r;
          } else {
            assert q in r[|r| - 1];
          }
        }
      }
    }
  }

  /** A group apart from `qs` shares no qubit with the groups that touch `qs`. */
  lemma {:induction false} JoinedApart(groups: seq<set<Qubit>>, qs: set<Qubit>, g: set<Qubit>)
    requires g !! qs && forall h :: h in groups && h != g ==> h !! g
    ensures g !! Joined(groups, qs)
  {
    if groups != [] {
      assert forall h :: h in groups[1..] ==> h in groups;
      JoinedApart(groups[1..], qs, g);
    }
  }

  lemma {:induction false} MergeDisjoint(groups: seq<set<Qubit>>, qs: set<Qubit>)
    requires Partition(groups)
    ensures Partition(Merge(groups, qs))
  {
    if qs != {} {
      var a := Apart(groups, qs);
      var j := qs + Joined(groups, qs);
      ApartDistinct(groups, qs);
      forall g | g in a
        ensures g !! j
      {
        JoinedApart(groups, qs, g);
      }
      PartitionSnoc(a, j);
    }
  }

  /** A non-empty group disjoint from every group of a partition extends it. */
  lemma {:induction false} PartitionSnoc(a: seq<set<Qubit>>, j: set<Qubit>)
    requires Partition(a) && j != {} && forall g :: g in a ==> g !! j
    ensures Partition(a + [j])
  {
    var r := a + [j];
    assert j !in a;
    assert Distinct(r) by {
      forall x, y | 0 <= x < y < |r|
        ensures r[x] != r[y]
      {
        if y < |a| {
          assert r[x] == a[x] && r[y] == a[y];
        } else {
          assert r[x] in a;
        }
      }
    }
    assert forall g :: g in r <==> g in a || g == j;
  }

  lemma {:induction false} MergeCover(groups: seq<set<Qubit>>, qs: set<Qubit>)
    ensures qs != {} ==> exists g :: g in Merge(groups, qs) && qs <= g
    ensures forall g :: g in groups ==> exists h :: h in Merge(groups, qs) && g <= h
  {
    if qs != {} {
      var r := Merge(groups, qs);
      var j := qs + Joined(groups, qs);
      assert j in r;
      forall g | g in groups
        ensures exists h :: h in r && g <= h
      {
        if g !! qs {
          assert g in r;
        } else {
          assert g <= j;
        }
      }
    } else {
      assert Merge(groups, qs) == groups;
    }
  }

  /** Qubit groups of the operations `ops`, as the union-find over their qubits leaves them. */
  function Components(ops: seq<Op>): seq<set<Qubit>>
  {
    if ops == [] then [] else Merge(Components(ops[..|ops| - 1]), Elems(ops[|ops| - 1].qubits))
  }

  lemma {:induction false} OpsQubitsSnoc(ops: seq<Op>)
    requires ops != []
    ensures OpsQubits(ops) == OpsQubits(ops[..|ops| - 1]) + Elems(ops[|ops| - 1].qubits)
  {
    var init := ops[..|ops| - 1];
    forall q | q in OpsQubits(ops)
      ensures q in OpsQubits(init) + Elems(ops[|ops| - 1].qubits)
    {
      var t :| 0 <= t < |ops| && q in ops[t].qubits;
      if t < |init| {
        assert q in init[t].qubits;
      }
    }
    forall q | q in OpsQubits(init)
      ensures q in OpsQubits(ops)
    {
      var t :| 0 <= t < |init| && q in init[t].qubits;
      assert q in ops[t].qubits;
    }
  }

  /**
   * The components are a partition of the operations' qubits, and the qubits of each operation lie
   * within one component.
   */
  lemma {:induction false} ComponentsSpec(ops: seq<Op>)
    ensures var r := Components(ops);
      && Partition(r)
      && Union(r) == OpsQubits(ops)
      && forall t :: 0 <= t < |ops| && ops[t].qubits != [] ==> exists g :: g in r && Elems(ops[t].qubits) <= g
  {
    if ops != [] {
      var init := ops[..|ops| - 1];
      var qs := Elems(ops[|ops| - 1].qubits);
      var groups := Components(init);
      ComponentsSpec(init);
      MergeDisjoint(groups, qs);
      MergeUnion(groups, qs);
      MergeCover(groups, qs);
      OpsQubitsSnoc(ops);
      forall t | 0 <= t < |ops| && ops[t].qubits != []
        ensures exists g :: g in Merge(groups, qs) && Elems(ops[t].qubits) <= g
      {
        if t < |init| {
          assert init[t] == ops[t];
          var g :| g in groups && Elems(init[t].qubits) <= g;
        } else {
          assert ops[t].qubits[0] in qs;
        }
      }
    }
  }

  /** The operations of `c`, moment by moment. */
  function AllOps(c: Circuit): seq<Op>
  {
    Concat(c)
  }

  /** The least qubit of a group, as cirq orders qubits; groups are listed by it. */
  function GroupMin(c: Circuit, g: set<Qubit>): Qubit
  {
    var members := SortedQubits(Filter(QubitSeq(c), g));
    if members == [] then LineQubit(0) else members[0]
  }

  /** `Moment.__getitem__(qubits)`: the operations of `m` that touch `g`. */
  function Touching(m: Moment, g: set<Qubit>): (r: Moment)
    ensures forall op :: op in r <==> op in m && !(Elems(op.qubits) !! g)
  {
    if m == [] then []
    else if !(Elems(m[0].qubits) !! g) then [m[0]] + Touching(m[1..], g)
    else Touching(m[1..], g)
  }

  /** The factor of `c` on the qubit group `g`: every moment keeps only the operations touching `g`. */
  function FactorCircuit(c: Circuit, g: set<Qubit>): (r: Circuit)
    ensures |r| == |c| && forall i :: 0 <= i < |c| ==> r[i] == Touching(c[i], g)
  {
    seq(|c|, i requires 0 <= i < |c| => Touching(c[i], g))
  }

  /** `circuit.factorize()`: one factor per qubit component, ordered by least qubit. */
  function Factorize(c: Circuit): (r: seq<Circuit>)
    ensures forall i :: 0 <= i < |r| ==> |r[i]| == |c|
  {
    var le := (g1: set<Qubit>, g2: set<Qubit>) => QubitLe(GroupMin(c, g1), GroupMin(c, g2));
    var groups := InsertionSort(Components(AllOps(c)), le);
    seq(|groups|, i requires 0 <= i < |groups| => FactorCircuit(c, groups[i]))
  }

  /** The qubit groups of `c`'s factors partition its qubits, and no operation straddles two groups. */
  lemma {:induction false} FactorGroups(c: Circuit)
    ensures var groups := Components(AllOps(c));
      && Partition(groups) && Union(groups) == AllQubits(c)
      && forall i, j :: 0 <= i < |c| && 0 <= j < |c[i]| && c[i][j].qubits != [] ==>
           exists g :: g in groups && Elems(c[i][j].qubits) <= g
  {
    var ops := AllOps(c);
    ComponentsSpec(ops);
    OpsQubitsAll(c);
    forall i, j | 0 <= i < |c| && 0 <= j < |c[i]| && c[i][j].qubits != []
      ensures exists g :: g in Components(ops) && Elems(c[i][j].qubits) <= g
    {
      ConcatMember(c, c[i][j]);
      var t :| 0 <= t < |ops| && ops[t] == c[i][j];
    }
  }

  /** The qubits of the flattened operations are the circuit's qubits. */
  lemma {:induction false} OpsQubitsAll(c: Circuit)
    ensures OpsQubits(AllOps(c)) == AllQubits(c)
  {
    var ops := AllOps(c);
    forall q
      ensures q in OpsQubits(ops) <==> q in AllQubits(c)
    {
      AllQubitsMember(c, q);
      if q in OpsQubits(ops) {
        var t :| 0 <= t < |ops| && q in ops[t].qubits;
        ConcatMember(c, ops[t]);
        var i :| 0 <= i < |c| && ops[t] in c[i];
        var j :| 0 <= j < |c[i]| && c[i][j] == ops[t];
        MomentQubitsMember(c[i], q);
      }
      if q in AllQubits(c) {
        var i :| 0 <= i < |c| && q in MomentQubits(c[i]);
        MomentQubitsMember(c[i], q);
        var j :| 0 <= j < |c[i]| && q in c[i][j].qubits;
        ConcatMember(c, c[i][j]);
        var t :| 0 <= t < |ops| && ops[t] == c[i][j];
      }
    }
  }

  // ---------------------------------------------------------------------------------------------
  // Fragments and the cutter itself.

  /**
   * The fragment for the factor `sub`: the global cut maps restricted to the factor's qubits.
   * `Fragment.__init__`'s assertions cannot fail here, since the restricted keys are qubits of `sub`.
   */
  function MakeFragment(sub: Circuit, qin: Dict<Qubit, CutName>, qout: Dict<Qubit, CutName>): (f: Fragment)
    ensures var qubits := AllQubits(sub);
      NewFragment(sub, Some(Restrict(qin, qubits)), Some(Restrict(qout, qubits))) == Ok(f)
  {
    var qubits := AllQubits(sub);
    var fin := Restrict(qin, qubits);
    var fout := Restrict(qout, qubits);
    forall q | q in Keys(fin)
      ensures q in qubits
    {
      assert Get(fin, q).Some?;
    }
    forall q | q in Keys(fout)
      ensures q in qubits
    {
      assert Get(fout, q).Some?;
    }
    NewFragment(sub, Some(fin), Some(fout)).value
  }

  /** `{"fragment_i": Fragment(...)}` for the factors of the cut circuit, `i` counting from 0. */
  function FragmentsOf(st: CutState): (r: Dict<nat, Fragment>)
    ensures var factors := Factorize(st.circuit);
      && Keys(r) == Range(|factors|)
      && forall i :: 0 <= i < |r| ==> r[i].1 == MakeFragment(factors[i], st.quantumInputs, st.quantumOutputs)
  {
    var factors := Factorize(st.circuit);
    seq(|factors|, i requires 0 <= i < |factors| =>
      (i as nat, MakeFragment(factors[i], st.quantumInputs, st.quantumOutputs)))
  }

  /** The inner scan of the cut loop: per moment from `k` on, the first operation on `src`. */
  method FindReplacements(c: Circuit, k: nat, src: Qubit, dst: Qubit) returns (reps: seq<Replacement>)
    ensures reps == ReplacementsFrom(c, k, src, dst)
  {
    reps := [];
    var i := k;
    assert [] + ReplacementsFrom(c, k, src, dst) == ReplacementsFrom(c, k, src, dst);
    while i < |c|
      invariant reps + ReplacementsFrom(c, i, src, dst) == ReplacementsFrom(c, k, src, dst)
      decreases |c| - i
    {
      var here := ReplacementAt(c, i, src, dst);
      AppendAssoc(reps, here, ReplacementsFrom(c, i + 1, src, dst));
      reps := reps + here;
      i := i + 1;
    }
  }

  /** The replacement the scan plans for moment `i`: none, or one for its first operation on `src`. */
  method ReplacementAt(c: Circuit, i: nat, src: Qubit, dst: Qubit) returns (here: seq<Replacement>)
    requires i < |c|
    ensures here + ReplacementsFrom(c, i + 1, src, dst) == ReplacementsFrom(c, i, src, dst)
  {
    var first := ScanMoment(c[i], src);
    here := if first.Some? then [(i, c[i][first.value], RenameOp(c[i][first.value], src, dst))] else [];
  }

  /** The scan of one moment for the first operation that addresses `q`. */
  method ScanMoment(m: Moment, q: Qubit) returns (r: Option<nat>)
    ensures r == FirstTouching(m, q)
  {
    var j := 0;
    while j < |m|
      invariant j <= |m|
      invariant forall l :: 0 <= l < j ==> q !in m[l].qubits
    {
      if q in m[j].qubits {
        return Some(j);
      }
      j := j + 1;
    }
    return None;
  }

  /** One iteration of the loop of `cut_circuit`, on its five loop variables. */
  method CutStep(c: Circuit, quantumInputs: Dict<Qubit, CutName>, quantumOutputs: Dict<Qubit, CutName>,
                 route: map<Qubit, Qubit>, cutIndex: nat, cut: Cut)
    returns (c': Circuit, quantumInputs': Dict<Qubit, CutName>, quantumOutputs': Dict<Qubit, CutName>,
             route': map<Qubit, Qubit>, cutIndex': nat)
    ensures CutState(c', quantumInputs', quantumOutputs', route', cutIndex')
      == ApplyCut(CutState(c, quantumInputs, quantumOutputs, route, cutIndex), cut)
  {
    c', quantumInputs', quantumOutputs', route', cutIndex' := c, quantumInputs, quantumOutputs, route, cutIndex;
    var (k, q) := cut;
    var name := CutName(cutIndex);
    var src := if q in route then route[q] else q;
    var dst := CutQubit(cutIndex);
    if src !in AllQubits(Upstream(c, k)) {
      return;
    }
    var replacements := FindReplacements(c, k, src, dst);
    if replacements == [] {
      return;
    }
    c' := BatchReplace(c, replacements);
    route' := route[q := dst];
    quantumOutputs' := Store(quantumOutputs, src, name);
    quantumInputs' := Store(quantumInputs, dst, name);
    cutIndex' := cutIndex + 1;
  }

  /** The closing loop of `cut_circuit`: one fragment per factor of the cut circuit, keyed by its index. */
  method CollectFragments(st: CutState) returns (fragments: Dict<nat, Fragment>)
    ensures fragments == FragmentsOf(st)
  {
    var factors := Factorize(st.circuit);
    ghost var all := FragmentsOf(st);
    assert |all| == |factors| by { assert |Keys(all)| == |Range(|factors|)|; }
    fragments := [];
    for i := 0 to |factors|
      invariant fragments == all[..i]
    {
      FragmentsOfPrefix(st, i);
      fragments := fragments + [(i, MakeFragment(factors[i], st.quantumInputs, st.quantumOutputs))];
    }
    assert all[..|factors|] == all;
  }

  /** The fragments of the first `i + 1` factors extend those of the first `i` by one. */
  lemma {:induction false} FragmentsOfPrefix(st: CutState, i: nat)
    requires i < |Factorize(st.circuit)|
    ensures i < |FragmentsOf(st)|
    ensures FragmentsOf(st)[..i + 1] == FragmentsOf(st)[..i] + [(i, MakeFragment(Factorize(st.circuit)[i], st.quantumInputs, st.quantumOutputs))]
  {
    var all := FragmentsOf(st);
    assert |all| == |Factorize(st.circuit)|;
    TakeSnoc(all, i);
  }

  /**
   * `cut_circuit`: processes the cuts in sorted order on a copy of the circuit, then factorizes it.
   * The loop state after every iteration is the fold `ApplyCuts` over the cuts seen so far, and the
   * result is one fragment per factor.
   */
  method CutCircuit(circuit: Circuit, cuts: seq<Cut>) returns (fragments: Dict<nat, Fragment>)
    ensures fragments == FragmentsOf(ApplyCuts(Start(circuit), SortCuts(cuts)))
  {
    var c := circuit;
    var quantumInputs: Dict<Qubit, CutName> := [];
    var quantumOutputs: Dict<Qubit, CutName> := [];
    var route: map<Qubit, Qubit> := map[];
    var cutIndex := 0;
    var sorted := SortCuts(cuts);
    for t := 0 to |sorted|
      invariant CutState(c, quantumInputs, quantumOutputs, route, cutIndex)
        == ApplyCuts(Start(circuit), sorted[..t])
    {
      assert sorted[..t + 1][..t] == sorted[..t];
      c, quantumInputs, quantumOutputs, route, cutIndex := CutStep(c, quantumInputs, quantumOutputs, route, cutIndex, sorted[t]);
    }
    assert sorted[..|sorted|] == sorted;
    fragments := CollectFragments(CutState(c, quantumInputs, quantumOutputs, route, cutIndex));
  }
}
