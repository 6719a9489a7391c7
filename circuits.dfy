/** Qubits, gates, operations and moment-structured circuits (the part of cirq the core uses). */
module Circuits {
  import opened Common
  import opened Sorting

  /**
   * A cirq qubit as `cut_circuit` receives and creates it: `LineQubit(x)` for the qubits of a converted circuit,
   * and `CutQubit(i)` for the `NamedQubit("cut_i")` that the cutter creates after cut number `i`.
   */
  datatype Qubit = LineQubit(x: int) | CutQubit(index: nat)

  /**
   * cirq's qubit order: qubits compare first by class name, so every `LineQubit` precedes every
   * `NamedQubit`; line qubits compare by index and names by natural order, which for `cut_i`
   * is the order of `i`.
   */
  predicate QubitLe(a: Qubit, b: Qubit)
  {
    match a
    case LineQubit(x) => b.LineQubit? ==> x <= b.x
    case CutQubit(i) => b.CutQubit? && i <= b.index
  }

  lemma {:induction false} QubitOrder()
    ensures TotalPreorder(QubitLe)
    ensures forall a, b :: QubitLe(a, b) && QubitLe(b, a) ==> a == b
  {
  }

  /** The elements of `s` once each, in order of first occurrence. */
  function Dedup<T(==)>(s: seq<T>): (r: seq<T>)
    ensures Distinct(r) && Elems(r) == Elems(s)
  {
    if s == [] then []
    else
      var r := Dedup(s[..|s| - 1]);
      assert Elems(s) == Elems(s[..|s| - 1]) + {s[|s| - 1]} by {
        assert s == s[..|s| - 1] + [s[|s| - 1]];
      }
      if s[|s| - 1] in r then r else r + [s[|s| - 1]]
  }

  lemma {:induction false} DistinctCount<T>(s: seq<T>, x: T)
    requires Distinct(s)
    ensures multiset(s)[x] <= 1
  {
    if s != [] {
      DistinctCount(s[1..], x);
      assert s == [s[0]] + s[1..];
      if s[0] == x {
        assert x !in s[1..];
      }
    }
  }

  lemma {:induction false} DistinctPermutation<T>(a: seq<T>, b: seq<T>)
    requires Distinct(a) && multiset(a) == multiset(b)
    ensures Distinct(b)
  {
    forall i, j | 0 <= i < j < |b|
      ensures b[i] != b[j]
    {
      if b[i] == b[j] {
        assert b == b[..j] + b[j..];
        assert b[i] in b[..j] && b[j] in b[j..];
        assert multiset(b)[b[j]] == multiset(b[..j])[b[j]] + multiset(b[j..])[b[j]];
        DistinctCount(a, b[j]);
      }
    }
  }

  /** `sorted(set(s))` for qubits: strictly increasing, with exactly the elements of `s`. */
  function SortedQubits(s: seq<Qubit>): (r: seq<Qubit>)
    ensures Distinct(r) && SortedBy(r, QubitLe) && Elems(r) == Elems(s)
  {
    QubitOrder();
    var d := Dedup(s);
    InsertionSortSpec(d, QubitLe);
    var r := InsertionSort(d, QubitLe);
    DistinctPermutation(d, r);
    assert forall x :: x in r <==> x in multiset(r);
    assert forall x :: x in d <==> x in multiset(d);
    r
  }

  /** Rotation angles, kept symbolic: no floating-point value is modelled. */
  datatype Angle =
    | SicPolar                 // 2 * arccos(1 / sqrt(3))
    | SicAzimuth(corner: nat)  // 2 * pi * corner / 3
    | ParamText(text: string)  // a parameter expression of a converted gate, not evaluated

  datatype Gate =
    | IGate | HGate | XGate | YGate | ZGate | SGate | SdgGate | TGate
    | CXGate | CZGate | SwapGate | CCXGate
    | Rx(rx: Angle) | Ry(ry: Angle) | Rz(rz: Angle)

  datatype Op = Op(gate: Gate, qubits: seq<Qubit>)

  /** Operations that happen at the same time, on disjoint qubits. */
  type Moment = seq<Op>

  type Circuit = seq<Moment>

  function MomentQubits(m: Moment): seq<Qubit>
  {
    if m == [] then [] else m[0].qubits + MomentQubits(m[1..])
  }

  /** Every qubit addressed in `c`, in order of the operations (with repeats). */
  function QubitSeq(c: Circuit): seq<Qubit>
  {
    if c == [] then [] else MomentQubits(c[0]) + QubitSeq(c[1..])
  }

  /** `circuit.all_qubits()`. */
  function AllQubits(c: Circuit): set<Qubit>
  {
    Elems(QubitSeq(c))
  }

  lemma {:induction false} MomentQubitsMember(m: Moment, q: Qubit)
    ensures q in MomentQubits(m) <==> exists k :: 0 <= k < |m| && q in m[k].qubits
  {
    if m != [] {
      MomentQubitsMember(m[1..], q);
      if q in MomentQubits(m[1..]) {
        var k :| 0 <= k < |m[1..]| && q in m[1..][k].qubits;
        assert q in m[k + 1].qubits;
      }
      if exists k :: 0 <= k < |m| && q in m[k].qubits {
        var k :| 0 <= k < |m| && q in m[k].qubits;
        if k > 0 {
          assert q in m[1..][k - 1].qubits;
        }
      }
    }
  }

  lemma {:induction false} QubitSeqMember(c: Circuit, q: Qubit)
    ensures q in QubitSeq(c) <==> exists i :: 0 <= i < |c| && q in MomentQubits(c[i])
  {
    if c != [] {
      QubitSeqMember(c[1..], q);
      if q in QubitSeq(c[1..]) {
        var i :| 0 <= i < |c[1..]| && q in MomentQubits(c[1..][i]);
        assert q in MomentQubits(c[i + 1]);
      }
      if exists i :: 0 <= i < |c| && q in MomentQubits(c[i]) {
        var i :| 0 <= i < |c| && q in MomentQubits(c[i]);
        if i > 0 {
          assert q in MomentQubits(c[1..][i - 1]);
        }
      }
    }
  }

  /** A qubit addressed by an operation of a moment is a qubit of the circuit. */
  lemma {:induction false} AllQubitsMember(c: Circuit, q: Qubit)
    ensures q in AllQubits(c) <==> exists i :: 0 <= i < |c| && q in MomentQubits(c[i])
  {
    QubitSeqMember(c, q);
  }

  /** cirq refuses a moment whose operations overlap and an operation that repeats a qubit. */
  predicate ValidMoment(m: Moment)
  {
    && (forall k :: 0 <= k < |m| ==> Distinct(m[k].qubits))
    && (forall k, l, q :: 0 <= k < l < |m| && q in m[k].qubits ==> q !in m[l].qubits)
  }

  predicate ValidCircuit(c: Circuit)
  {
    forall i :: 0 <= i < |c| ==> ValidMoment(c[i])
  }
}
