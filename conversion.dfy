/**
 * helper_functions/conversion.py: translation of a qiskit circuit into cirq through the qusetta
 * text form, in which every gate is a string such as `CX(1, 0)` or `RZ(0.5)(2)`, and the
 * positions of the cuts are carried along as (gate, occurrence) pairs.
 */
module Conversion {
  import opened Common
  import opened Text

  const ParameterFreeGates: set<string> := {"I", "H", "X", "Y", "Z", "S", "T", "CX", "CZ", "SWAP", "CCX"}
  const ParameterGates: set<string> := {"RX", "RY", "RZ"}

  // ---------------------------------------------------------------------------------------------
  // `gate_info` (lines 124-157).

  /** A parsed gate string: its name, the text of each parameter and its qubit indices. */
  datatype GateInfo = GateInfo(name: string, params: seq<string>, qubits: seq<int>)

  /** `tuple(int(x) for x in pieces)`. */
  function ParseInts(pieces: seq<string>): (r: Result<seq<int>>)
    ensures r.Ok? <==> forall k :: 0 <= k < |pieces| ==> ParseInt(pieces[k]).Ok?
    ensures r.Err? ==> r.error == ValueError
    ensures r.Ok? ==> |r.value| == |pieces|
    ensures r.Ok? ==> forall k :: 0 <= k < |pieces| ==> ParseInt(pieces[k]) == Ok(r.value[k])
  {
    if pieces == [] then Ok([])
    else
      var head :- ParseInt(pieces[0]);
      var tail :- ParseInts(pieces[1..]);
      Ok([head] + tail)
  }

  /** The name of a gate string: the text before its first `(`, stripped and upper-cased. */
  function NameOf(gate: string): string
    requires '(' in gate
  {
    Upper(Strip(gate[..IndexOf(gate, '(').value]))
  }

  // `float(eval(x))` on a parameter text (line 145).

  /**
   * The names that can appear in parameter text of the qusetta form: `PI` (the translation prints
   * `PI/2`), and `inf` and `nan`, which `"%g"` prints for infinite and undefined floats.
   */
  const TextNames: set<string> := {"PI", "inf", "nan"}

  /**
   * Which of `TextNames` the module evaluating the text defines: none, since conversion.py imports
   * only cirq, qiskit and typing and defines no `PI`.
   */
  const ConversionScope: set<string> := {}

  predicate NameChar(ch: char)
  {
    'A' <= ch <= 'Z' || 'a' <= ch <= 'z' || '0' <= ch <= '9' || ch == '_'
  }

  /** `name` occurs in `x` at `k` as a whole identifier. */
  predicate NameAt(x: string, name: string, k: int)
  {
    && 0 <= k && k + |name| <= |x| && x[k..k + |name|] == name
    && (k == 0 || !NameChar(x[k - 1]))
    && (k + |name| == |x| || !NameChar(x[k + |name|]))
  }

  /** `x` names one of `TextNames` that `defined` leaves undefined. */
  predicate Undefined(x: string, defined: set<string>)
  {
    exists name, k :: name in TextNames && name !in defined && 0 <= k < |x| && NameAt(x, name, k)
  }

  /**
   * `float(eval(x))` in a scope that defines `defined`: a NameError when the text names an
   * undefined name; otherwise the parameter is kept as its text.
   */
  function Eval(x: string, defined: set<string>): (r: Result<string>)
    ensures r.Err? ==> r.error == NameError
    ensures r.Ok? ==> r.value == x
  {
    if Undefined(x, defined) then Err(NameError) else Ok(x)
  }

  /** `tuple(float(eval(x)) for x in xs)`: the first failure, if any, is raised. */
  function EvalAll(xs: seq<string>, defined: set<string>): (r: Result<seq<string>>)
    ensures r.Ok? <==> forall k :: 0 <= k < |xs| ==> !Undefined(xs[k], defined)
    ensures r.Err? ==> r.error == NameError
    ensures r.Ok? ==> r.value == xs
  {
    if xs == [] then Ok([])
    else
      var head :- Eval(xs[0], defined);
      var tail :- EvalAll(xs[1..], defined);
      assert forall k :: 1 <= k < |xs| ==> xs[1..][k - 1] == xs[k];
      Ok([head] + tail)
  }

  /** `PI` between a blank (or the start) and a `/` is a mention of an undefined name when `PI` is not defined. */
  lemma {:induction false} PiNamed(x: string, k: nat, defined: set<string>)
    requires "PI" !in defined
    requires k + 3 <= |x| && x[k] == 'P' && x[k + 1] == 'I' && x[k + 2] == '/'
    requires k == 0 || x[k - 1] == ' '
    ensures Undefined(x, defined)
  {
    assert x[k..k + 2] == "PI";
    assert NameAt(x, "PI", k);
  }

  /** Text without the letter `n` names neither `inf` nor `nan`, so it evaluates once `PI` is defined. */
  lemma {:induction false} DefinedWithPi(x: string, defined: set<string>)
    requires "PI" in defined && 'n' !in x
    ensures !Undefined(x, defined)
  {
    if Undefined(x, defined) {
      var name, k :| name in TextNames && name !in defined && 0 <= k < |x| && NameAt(x, name, k);
      NameLetter(x, name, k);
      assert false;
    }
  }

  /** A mention of `inf` or `nan` puts an `n` in the text. */
  lemma {:induction false} NameLetter(x: string, name: string, k: int)
    requires (name == "inf" || name == "nan") && NameAt(x, name, k)
    ensures 'n' in x
  {
    var at := if name == "inf" then 1 else 0;
    assert x[k + at] == x[k..k + |name|][at];
  }

  /**
   * `gate_info` in a scope that defines `defined`: a ValueError without `(` or with a missing `)`
   * or a qubit that is not an integer, a NotImplementedError for a name outside the two gate sets,
   * a NameError for a parameter naming an undefined name. The pipeline reads gates in
   * `ConversionScope`.
   */
  function ParseGate(gate: string, defined: set<string>): (r: Result<GateInfo>)
    ensures '(' !in gate ==> r == Err(ValueError)
    ensures r.Err? ==> r.error == ValueError || r.error == NotImplementedError || r.error == NameError
    ensures r.Ok? ==> '(' in gate && r.value.name == NameOf(gate)
  {
    match IndexOf(gate, '(')
    case Err(e) => Err(e)
    case Ok(i) => ParseArguments(Upper(Strip(gate[..i])), gate[i + 1..], defined)
  }

  /** Only the names of the two gate sets are read, and only those of the rotations carry parameters. */
  lemma {:induction false} ParseGateNames(gate: string, defined: set<string>)
    ensures '(' in gate && NameOf(gate) !in ParameterGates && NameOf(gate) !in ParameterFreeGates ==>
      ParseGate(gate, defined) == Err(NotImplementedError)
    ensures ParseGate(gate, defined).Ok? ==>
      (ParseGate(gate, defined).value.name in ParameterFreeGates <==> ParseGate(gate, defined).value.params == [])
    ensures ParseGate(gate, defined).Ok? ==>
      ParseGate(gate, defined).value.name in ParameterGates || ParseGate(gate, defined).value.name in ParameterFreeGates
    ensures ParseGate(gate, defined) == Err(NameError) ==> NameOf(gate) in ParameterGates
  {
    match IndexOf(gate, '(')
    case Err(_) =>
    case Ok(i) => ParseArgumentsNames(Upper(Strip(gate[..i])), gate[i + 1..], defined);
  }

  /** No name is in both gate sets. */
  lemma {:induction false} GateSetsDisjoint(g: string)
    requires g in ParameterGates
    ensures g !in ParameterFreeGates
  {
    assert |g| == 2 && g[0] == 'R';
  }

  /** `gate_info` after the name `g`, on the text `rest` that follows its `(`. */
  function ParseArguments(g: string, rest: string, defined: set<string>): (r: Result<GateInfo>)
    ensures r.Err? ==> r.error == ValueError || r.error == NotImplementedError || r.error == NameError
    ensures r.Ok? ==> r.value.name == g
  {
    if g in ParameterGates then
      GateSetsDisjoint(g);
      var j :- IndexOf(rest, ')');
      var params :- EvalAll(Split(rest[..j], ','), defined);
      var i2 :- IndexOf(rest, '(');
      var rest2 := rest[i2 + 1..];
      var j2 :- IndexOf(rest2, ')');
      var qubits :- ParseInts(Split(rest2[..j2], ','));
      Ok(GateInfo(g, params, qubits))
    else if g in ParameterFreeGates then
      var j :- IndexOf(rest, ')');
      var qubits :- ParseInts(Split(rest[..j], ','));
      Ok(GateInfo(g, [], qubits))
    else
      Err(NotImplementedError)
  }

  /**
   * A name outside the two gate sets is not implemented; only the rotations carry parameters, and
   * only their parameters can raise a NameError.
   */
  lemma {:induction false} ParseArgumentsNames(g: string, rest: string, defined: set<string>)
    ensures g !in ParameterGates && g !in ParameterFreeGates ==> ParseArguments(g, rest, defined) == Err(NotImplementedError)
    ensures ParseArguments(g, rest, defined).Ok? ==> (g in ParameterFreeGates <==> ParseArguments(g, rest, defined).value.params == [])
    ensures ParseArguments(g, rest, defined) == Err(NameError) ==> g in ParameterGates
  {
    if g in ParameterGates {
      GateSetsDisjoint(g);
    }
  }

  // ---------------------------------------------------------------------------------------------
  // `qiskit_to_qusetta` (lines 19-81).

  /** A gate parameter, by the two texts the translation prints for it: `str(x)` and `"%g" % x`. */
  datatype Param = Param(text: string, short: string)

  /** One instruction of a qiskit circuit: the gate name, its parameters and its qubit indices. */
  datatype Instruction = Instruction(name: string, params: seq<Param>, qubits: seq<nat>)

  /** An entry of the cut positions: a wire and the (name, qubits, occurrence) of a gate. */
  datatype Position = Position(wire: nat, name: string, qubits: seq<nat>, occurrence: int)

  /** qiskit numbers qubits the other way round: index `q` of `n` becomes `n - 1 - q`. */
  function Reverse(n: nat, q: int): int
  {
    n - q - 1
  }

  /** The reversal keeps a valid index valid and undoes itself. */
  lemma {:induction false} ReverseIndex(n: nat, q: int)
    ensures 0 <= q < n <==> 0 <= Reverse(n, q) < n
    ensures Reverse(n, Reverse(n, q)) == q
  {
  }

  /** The reversed qubit indices, printed. */
  function QubitTexts(n: nat, qubits: seq<nat>): (r: seq<string>)
    ensures |r| == |qubits| && forall k :: 0 <= k < |qubits| ==> r[k] == IntToString(Reverse(n, qubits[k]))
  {
    seq(|qubits|, k requires 0 <= k < |qubits| => IntToString(Reverse(n, qubits[k])))
  }

  function ParamTexts(params: seq<Param>): (r: seq<string>)
    ensures |r| == |params| && forall k :: 0 <= k < |params| ==> r[k] == params[k].text
  {
    seq(|params|, k requires 0 <= k < |params| => params[k].text)
  }

  /** `"(" + ", ".join(items) + ")"`. */
  function Group(items: seq<string>): string
  {
    "(" + Join(items, ", ") + ")"
  }

  /** The name a qiskit gate gets in qusetta text: `ID` is `I`, `U1` is `RZ`. */
  function Renamed(g: string): (r: string)
    ensures g != "ID" && g != "U1" ==> r == g
  {
    if g == "ID" then "I" else if g == "U1" then "RZ" else g
  }

  /** The number of qusetta gates an instruction becomes. */
  function Width(instr: Instruction): nat
  {
    var g := Upper(instr.name);
    if g == "MEASURE" then 0 else if g == "U2" || g == "U3" then 3 else 1
  }

  function TotalWidth(circuit: seq<Instruction>): nat
  {
    if circuit == [] then 0 else TotalWidth(circuit[..|circuit| - 1]) + Width(circuit[|circuit| - 1])
  }

  /** The text `g(p)(x)` of a single-parameter rotation `g` by `p` on qubit `x`. */
  function Rotation(g: string, p: string, x: string): string
  {
    g + "(" + p + ")(" + x + ")"
  }

  /**
   * The qusetta gates of one instruction: none for a measurement, three rotations for `U2` and
   * `U3` (an IndexError when the qubit or a parameter they read is missing), otherwise the renamed
   * gate with its parameters and reversed qubits.
   */
  function Translate(instr: Instruction, n: nat): (r: Result<seq<string>>)
    ensures r.Err? ==> r.error == IndexError
    ensures r.Ok? ==> |r.value| == Width(instr)
    ensures Upper(instr.name) == "MEASURE" ==> r == Ok([])
  {
    var g := Upper(instr.name);
    if g == "MEASURE" then Ok([])
    else if g == "U2" then
      if |instr.qubits| == 0 || |instr.params| < 2 then Err(IndexError)
      else
        var r := IntToString(Reverse(n, instr.qubits[0]));
        Ok([Rotation("RZ", instr.params[1].short + " - PI/2", r),
            Rotation("RX", "PI/2", r),
            Rotation("RZ", instr.params[0].short + " + PI/2", r)])
    else if g == "U3" then
      if |instr.qubits| == 0 || |instr.params| < 3 then Err(IndexError)
      else
        var r := IntToString(Reverse(n, instr.qubits[0]));
        Ok([Rotation("RZ", instr.params[2].short + " - PI/2", r),
            Rotation("RX", instr.params[0].short, r),
            Rotation("RZ", instr.params[1].short + " + PI/2", r)])
    else
      var withParams := if instr.params == [] then Renamed(g) else Renamed(g) + Group(ParamTexts(instr.params));
      Ok([withParams + Group(QubitTexts(n, instr.qubits))])
  }

  /** `qs_circuit`: the instructions' qusetta gates in circuit order, or the first error. */
  function Translated(circuit: seq<Instruction>, n: nat): (r: Result<seq<string>>)
    ensures r.Err? ==> r.error == IndexError
    ensures r.Ok? ==> |r.value| == TotalWidth(circuit)
  {
    if circuit == [] then Ok([])
    else
      var prev :- Translated(circuit[..|circuit| - 1], n);
      var out :- Translate(circuit[|circuit| - 1], n);
      Ok(prev + out)
  }

  /** A translation that fails on a prefix fails on the whole circuit, with the same error. */
  lemma {:induction false} TranslatedPrefix(circuit: seq<Instruction>, n: nat, i: nat)
    requires i <= |circuit| && Translated(circuit[..i], n).Err?
    ensures Translated(circuit, n) == Translated(circuit[..i], n)
    decreases |circuit|
  {
    if i < |circuit| {
      var m := |circuit| - 1;
      assert circuit[..m][..i] == circuit[..i];
      TranslatedPrefix(circuit[..m], n, i);
    } else {
      assert circuit[..i] == circuit;
    }
  }

  /** The key `qs_position` records for a cut position: the gate name and its reversed qubits. */
  function PositionKey(p: Position, n: nat): string
  {
    p.name + Group(QubitTexts(n, p.qubits))
  }

  /** `qs_position`: each key mapped to the (occurrence, reversed wire) of its last entry. */
  function Positions(position: seq<Position>, n: nat): (r: Dict<string, (int, string)>)
    ensures DistinctKeys(r)
  {
    if position == [] then []
    else
      var p := position[|position| - 1];
      var prev := Positions(position[..|position| - 1], n);
      StoreKeys(prev, PositionKey(p, n), (p.occurrence, IntToString(Reverse(n, p.wire))));
      Store(prev, PositionKey(p, n), (p.occurrence, IntToString(Reverse(n, p.wire))))
  }

  /** A recorded cut position is found under its key, with the last occurrence given for it. */
  lemma {:induction false} PositionsLookup(position: seq<Position>, n: nat, i: nat)
    requires i < |position|
    requires forall k :: i < k < |position| ==> PositionKey(position[k], n) != PositionKey(position[i], n)
    ensures Get(Positions(position, n), PositionKey(position[i], n)) ==
      Some((position[i].occurrence, IntToString(Reverse(n, position[i].wire))))
  {
    var m := |position| - 1;
    var p := position[m];
    var prev := Positions(position[..m], n);
    var key := PositionKey(position[i], n);
    assert Positions(position, n) == Store(prev, PositionKey(p, n), (p.occurrence, IntToString(Reverse(n, p.wire))));
    StoreGet(prev, PositionKey(p, n), (p.occurrence, IntToString(Reverse(n, p.wire))), key);
    if i < m {
      var init := position[..m];
      assert init[i] == position[i];
      assert forall k :: i < k < |init| ==> init[k] == position[k];
      PositionsLookup(init, n, i);
    }
  }

  /**
   * Lines 19-81, with the source's two loops: the gates in order, then the cut positions. The
   * qubit count is `circuit.num_qubits`; an absent position list is the empty one.
   */
  method QiskitToQusetta(circuit: seq<Instruction>, n: nat, position: seq<Position>)
    returns (r: Result<(seq<string>, Dict<string, (int, string)>)>)
    ensures Translated(circuit, n).Err? ==> r == Err(Translated(circuit, n).error)
    ensures Translated(circuit, n).Ok? ==> r == Ok((Translated(circuit, n).value, Positions(position, n)))
  {
    var qsCircuit: seq<string> := [];
    for i := 0 to |circuit|
      invariant Translated(circuit[..i], n) == Ok(qsCircuit)
    {
      assert circuit[..i + 1][..i] == circuit[..i];
      var out := TranslateInstruction(circuit[i], n);
      if out.Err? {
        TranslatedPrefix(circuit, n, i + 1);
        return Err(out.error);
      }
      qsCircuit := qsCircuit + out.value;
    }
    assert circuit[..|circuit|] == circuit;
    var qsPosition: Dict<string, (int, string)> := [];
    for k := 0 to |position|
      invariant qsPosition == Positions(position[..k], n)
    {
      assert position[..k + 1][..k] == position[..k];
      var p := position[k];
      var wire := IntToString(Reverse(n, p.wire));
      var name := p.name + Group(QubitTexts(n, p.qubits));
      qsPosition := Store(qsPosition, name, (p.occurrence, wire));
    }
    assert position[..|position|] == position;
    return Ok((qsCircuit, qsPosition));
  }

  /** The loop body of lines 35-70 for one instruction: what it appends to `qs_circuit`. */
  method TranslateInstruction(instr: Instruction, n: nat) returns (r: Result<seq<string>>)
    ensures r == Translate(instr, n)
  {
    var g := Upper(instr.name);
    if g == "MEASURE" {
      return Ok([]);
    }
    if g == "U2" || g == "U3" {
      if |instr.qubits| == 0 || |instr.params| < (if g == "U2" then 2 else 3) {
        return Err(IndexError);
      }
      var x := IntToString(Reverse(n, instr.qubits[0]));
      if g == "U2" {
        return Ok([Rotation("RZ", instr.params[1].short + " - PI/2", x),
                   Rotation("RX", "PI/2", x),
                   Rotation("RZ", instr.params[0].short + " + PI/2", x)]);
      }
      return Ok([Rotation("RZ", instr.params[2].short + " - PI/2", x),
                 Rotation("RX", instr.params[0].short, x),
                 Rotation("RZ", instr.params[1].short + " + PI/2", x)]);
    }
    g := Renamed(g);
    if instr.params != [] {
      g := g + Group(ParamTexts(instr.params));
    }
    g := g + Group(QubitTexts(n, instr.qubits));
    return Ok([g]);
  }

  // ---------------------------------------------------------------------------------------------
  // The qusetta text read back by `gate_info`.

  /** Printed integers joined by `", "` read back, through `split(",")` and `int`, as the integers. */
  lemma {:induction false} ReadBackInts(xs: seq<int>)
    requires xs != []
    ensures ParseInts(Split(Join(seq(|xs|, k requires 0 <= k < |xs| => IntToString(xs[k])), ", "), ',')) == Ok(xs)
  {
    var texts := seq(|xs|, k requires 0 <= k < |xs| => IntToString(xs[k]));
    var pieces := Split(Join(texts, ", "), ',');
    PrintedPieces(xs, texts);
    ParseIntsExact(pieces, xs);
  }

  /** Each piece of the joined printed integers is one printed integer, after a blank from the second on. */
  lemma {:induction false} PrintedPieces(xs: seq<int>, texts: seq<string>)
    requires xs != [] && texts == seq(|xs|, k requires 0 <= k < |xs| => IntToString(xs[k]))
    ensures var pieces := Split(Join(texts, ", "), ',');
      |pieces| == |xs| && forall k :: 0 <= k < |xs| ==> ParseInt(pieces[k]) == Ok(xs[k])
  {
    assert ", " == [','] + " ";
    SplitJoin(texts, ',', " ");
    var pieces := Split(Join(texts, ", "), ',');
    forall k | 0 <= k < |xs|
      ensures ParseInt(pieces[k]) == Ok(xs[k])
    {
      if k == 0 {
        ParseIntToString("", xs[0]);
        assert "" + IntToString(xs[0]) == IntToString(xs[0]);
      } else {
        ParseIntToString(" ", xs[k]);
      }
    }
  }

  /** Pieces that each read as the matching integer read, together, as the integers. */
  lemma {:induction false} ParseIntsExact(pieces: seq<string>, xs: seq<int>)
    requires |pieces| == |xs| && forall k :: 0 <= k < |xs| ==> ParseInt(pieces[k]) == Ok(xs[k])
    ensures ParseInts(pieces) == Ok(xs)
  {
    var r := ParseInts(pieces);
    assert r.value == xs;
  }

  /** Group text holds no comma-free surprises: it starts with `(`, ends with `)` and has no other parenthesis. */
  lemma {:induction false} GroupShape(items: seq<string>)
    requires forall k :: 0 <= k < |items| ==> '(' !in items[k] && ')' !in items[k]
    ensures var s := Join(items, ", "); '(' !in s && ')' !in s
  {
    if |items| > 1 {
      GroupShape(items[1..]);
    }
  }

  /**
   * A parameter-free gate that the translation prints is read back by `gate_info` as the renamed
   * gate with the reversed qubits and no parameters.
   */
  lemma {:induction false} ParameterFreeRoundTrip(instr: Instruction, n: nat, defined: set<string>)
    requires Renamed(Upper(instr.name)) in ParameterFreeGates
    requires instr.params == [] && instr.qubits != []
    ensures Translate(instr, n).Ok? && |Translate(instr, n).value| == 1
    ensures ParseGate(Translate(instr, n).value[0], defined) ==
      Ok(GateInfo(Renamed(Upper(instr.name)), [], seq(|instr.qubits|, k requires 0 <= k < |instr.qubits| => Reverse(n, instr.qubits[k]))))
  {
    var g := Renamed(Upper(instr.name));
    PlainGateName(Upper(instr.name));
    var ys := seq(|instr.qubits|, k requires 0 <= k < |instr.qubits| => Reverse(n, instr.qubits[k]));
    var texts := QubitTexts(n, instr.qubits);
    assert texts == seq(|ys|, k requires 0 <= k < |ys| => IntToString(ys[k]));
    assert Translate(instr, n) == Ok([g + Group(texts)]);
    FreeGateText(g, ys, defined);
  }

  /** An upper-case name that renames to a parameter-free gate is none of the specially handled ones. */
  lemma {:induction false} PlainGateName(g: string)
    requires Renamed(g) in ParameterFreeGates
    ensures g != "MEASURE" && g != "U2" && g != "U3"
  {
    if g == "U1" {
      assert Renamed(g) == "RZ";
      GateSetsDisjoint("RZ");
    }
  }

  /** A parameter-free gate printed with a group of integers is read back as that gate on those integers. */
  lemma {:induction false} FreeGateText(g: string, ys: seq<int>, defined: set<string>)
    requires g in ParameterFreeGates && ys != []
    ensures ParseGate(g + Group(seq(|ys|, k requires 0 <= k < |ys| => IntToString(ys[k]))), defined) == Ok(GateInfo(g, [], ys))
  {
    var texts := seq(|ys|, k requires 0 <= k < |ys| => IntToString(ys[k]));
    var body := Join(texts, ", ");
    var rest := body + ")";
    assert g + Group(texts) == g + "(" + rest;
    NameShape(g, rest, defined);
    PrintedNoParens(ys, texts);
    GroupShape(texts);
    ReadBackInts(ys);
    FreeArguments(g, body, ys, defined);
  }

  /** Printed integers hold no parenthesis. */
  lemma {:induction false} PrintedNoParens(ys: seq<int>, texts: seq<string>)
    requires texts == seq(|ys|, k requires 0 <= k < |ys| => IntToString(ys[k]))
    ensures forall k :: 0 <= k < |texts| ==> '(' !in texts[k] && ')' !in texts[k]
  {
    forall k | 0 <= k < |texts|
      ensures '(' !in texts[k] && ')' !in texts[k]
    {
      var t := IntToString(ys[k]);
      assert texts[k] == t;
      assert forall j :: 0 <= j < |t| ==> t[j] != '(' && t[j] != ')';
    }
  }

  /** The arguments of a parameter-free gate: integers up to the closing parenthesis. */
  lemma {:induction false} FreeArguments(g: string, body: string, ys: seq<int>, defined: set<string>)
    requires g in ParameterFreeGates && ')' !in body && ParseInts(Split(body, ',')) == Ok(ys)
    ensures ParseArguments(g, body + ")", defined) == Ok(GateInfo(g, [], ys))
  {
    var rest := body + ")";
    assert rest[..|body|] == body;
    IndexOfFirst(rest, ')', |body|);
    GateSetsDisjointFree(g);
  }

  lemma {:induction false} GateSetsDisjointFree(g: string)
    requires g in ParameterFreeGates
    ensures g !in ParameterGates
  {
    if g in ParameterGates {
      GateSetsDisjoint(g);
    }
  }

  /** A gate name from the two gate sets, followed by `(`, is found again by `gate_info`. */
  lemma {:induction false} NameShape(g: string, rest: string, defined: set<string>)
    requires g in ParameterFreeGates || g in ParameterGates
    ensures IndexOf(g + "(" + rest, '(') == Ok(|g|)
    ensures NameOf(g + "(" + rest) == g
    ensures ParseGate(g + "(" + rest, defined) == ParseArguments(g, rest, defined)
  {
    GateNamesPlain(g);
    CapitalsShape(g, rest, defined);
  }

  /** A run of capital letters followed by `(` is read back as that name. */
  lemma {:induction false} CapitalsShape(g: string, rest: string, defined: set<string>)
    requires g != [] && forall k :: 0 <= k < |g| ==> 'A' <= g[k] <= 'Z'
    ensures IndexOf(g + "(" + rest, '(') == Ok(|g|)
    ensures NameOf(g + "(" + rest) == g
    ensures ParseGate(g + "(" + rest, defined) == ParseArguments(g, rest, defined)
  {
    var s := g + "(" + rest;
    assert s[|g| + 1..] == rest;
    assert s[..|g|] == g;
    IndexOfFirst(s, '(', |g|);
    assert Strip(g) == g by {
      StripSpaced("", g);
      assert "" + g == g;
    }
    UpperFixed(g);
  }

  /** Every known gate name is a non-empty run of capital letters. */
  lemma {:induction false} GateNamesPlain(g: string)
    requires g in ParameterFreeGates || g in ParameterGates
    ensures g != [] && forall k :: 0 <= k < |g| ==> 'A' <= g[k] <= 'Z'
  {
  }

  /** Text `"%g"` prints for a finite float: digits, a point, signs and an exponent. */
  predicate PrintedFinite(x: string)
  {
    forall k :: 0 <= k < |x| ==> x[k] in "0123456789.+-e"
  }

  /** Printed finite floats hold no parenthesis, comma or `n` (the letter of `inf` and `nan`). */
  lemma {:induction false} PrintedFiniteText(x: string)
    requires PrintedFinite(x)
    ensures '(' !in x && ')' !in x && ',' !in x && 'n' !in x
  {
    if '(' in x || ')' in x || ',' in x || 'n' in x {
      var k :| 0 <= k < |x| && x[k] in "(),n";
      assert false;
    }
  }

  /**
   * The intended reading of a `U2` or `U3` expansion, where `PI` is defined as the docstring's
   * `RX(PI/2)(1)` presumes: its three rotations are read back as `RZ`, `RX`, `RZ` on the single
   * reversed qubit, each with its printed parameter text, when the printed parameters are finite.
   */
  lemma {:induction false} RotationRoundTrip(instr: Instruction, n: nat, k: nat)
    requires Upper(instr.name) == "U2" || Upper(instr.name) == "U3"
    requires Translate(instr, n).Ok? && k < 3
    requires forall j :: 0 <= j < |instr.params| ==> PrintedFinite(instr.params[j].short)
    ensures forall j :: 0 <= j < |instr.params| ==>
      '(' !in instr.params[j].short && ')' !in instr.params[j].short && ',' !in instr.params[j].short
    ensures ParseGate(Translate(instr, n).value[k], {"PI"}) ==
      Ok(GateInfo(if k == 1 then "RX" else "RZ", [RotationParam(instr, k)], [Reverse(n, instr.qubits[0])]))
  {
    forall j | 0 <= j < |instr.params|
      ensures '(' !in instr.params[j].short && ')' !in instr.params[j].short && ',' !in instr.params[j].short
      ensures 'n' !in instr.params[j].short
    {
      PrintedFiniteText(instr.params[j].short);
    }
    var g := if k == 1 then "RX" else "RZ";
    var v := Reverse(n, instr.qubits[0]);
    var p := RotationParam(instr, k);
    assert Translate(instr, n).value[k] == Rotation(g, p, IntToString(v));
    DefinedWithPi(p, {"PI"});
    RotationShape(g, p, v, {"PI"});
  }

  /**
   * The expansion of a `U2` or `U3` as written: its first and last rotations, and for `U2` also
   * the middle one, carry `PI`, which the module does not define, so `gate_info` raises a
   * NameError on them.
   */
  lemma {:induction false} ExpansionUnreadable(instr: Instruction, n: nat)
    requires Upper(instr.name) == "U2" || Upper(instr.name) == "U3"
    requires Translate(instr, n).Ok?
    requires forall j :: 0 <= j < |instr.params| ==>
      '(' !in instr.params[j].short && ')' !in instr.params[j].short && ',' !in instr.params[j].short
    ensures ParseGate(Translate(instr, n).value[0], ConversionScope) == Err(NameError)
    ensures ParseGate(Translate(instr, n).value[2], ConversionScope) == Err(NameError)
    ensures Upper(instr.name) == "U2" ==> ParseGate(Translate(instr, n).value[1], ConversionScope) == Err(NameError)
  {
    ExpansionRotationUnreadable(instr, n, 0);
    ExpansionRotationUnreadable(instr, n, 2);
    if Upper(instr.name) == "U2" {
      ExpansionRotationUnreadable(instr, n, 1);
    }
  }

  /** Rotation `k` of a `U2` or `U3` expansion names `PI`, unless it is the middle rotation of a `U3`. */
  lemma {:induction false} ExpansionRotationUnreadable(instr: Instruction, n: nat, k: nat)
    requires Upper(instr.name) == "U2" || Upper(instr.name) == "U3"
    requires Translate(instr, n).Ok? && k < 3 && (k != 1 || Upper(instr.name) == "U2")
    requires forall j :: 0 <= j < |instr.params| ==>
      '(' !in instr.params[j].short && ')' !in instr.params[j].short && ',' !in instr.params[j].short
    ensures ParseGate(Translate(instr, n).value[k], ConversionScope) == Err(NameError)
  {
    var g := if k == 1 then "RX" else "RZ";
    var v := Reverse(n, instr.qubits[0]);
    var ps := instr.params;
    var p := RotationParam(instr, k);
    assert Translate(instr, n).value[k] == Rotation(g, p, IntToString(v));
    if k == 1 {
      PiNamed(p, 0, ConversionScope);
    } else if k == 0 {
      PiAfter(if Upper(instr.name) == "U2" then ps[1].short else ps[2].short, " - PI/2");
    } else {
      PiAfter(if Upper(instr.name) == "U2" then ps[0].short else ps[1].short, " + PI/2");
    }
    RotationShape(g, p, v, ConversionScope);
  }

  /** `x - PI/2` and `x + PI/2` name `PI`. */
  lemma {:induction false} PiAfter(x: string, shift: string)
    requires shift == " - PI/2" || shift == " + PI/2"
    ensures Undefined(x + shift, ConversionScope)
  {
    PiNamed(x + shift, |x| + 3, ConversionScope);
  }

  /** The parameter text of rotation `k` of a `U2` or `U3` expansion. */
  function RotationParam(instr: Instruction, k: nat): (r: string)
    requires Upper(instr.name) == "U2" || Upper(instr.name) == "U3"
    requires |instr.params| >= (if Upper(instr.name) == "U2" then 2 else 3) && k < 3
    requires forall j :: 0 <= j < |instr.params| ==>
      '(' !in instr.params[j].short && ')' !in instr.params[j].short && ',' !in instr.params[j].short
    ensures '(' !in r && ')' !in r && ',' !in r
    ensures (forall j :: 0 <= j < |instr.params| ==> 'n' !in instr.params[j].short) ==> 'n' !in r
  {
    var ps := instr.params;
    if Upper(instr.name) == "U2" then
      (if k == 0 then ps[1].short + " - PI/2" else if k == 1 then "PI/2" else ps[0].short + " + PI/2")
    else
      (if k == 0 then ps[2].short + " - PI/2" else if k == 1 then ps[0].short else ps[1].short + " + PI/2")
  }

  /**
   * `g(p)(x)` with plain parameter text `p` and a printed integer `x` is read back as `g` on qubit
   * `x` with parameter `p`, unless `p` names an undefined name, which raises a NameError.
   */
  lemma {:induction false} RotationShape(g: string, p: string, v: int, defined: set<string>)
    requires g in ParameterGates
    requires '(' !in p && ')' !in p && ',' !in p
    ensures ParseGate(Rotation(g, p, IntToString(v)), defined) ==
      if Undefined(p, defined) then Err(NameError) else Ok(GateInfo(g, [p], [v]))
  {
    var rest := p + ")(" + IntToString(v) + ")";
    assert Rotation(g, p, IntToString(v)) == g + "(" + rest;
    NameShape(g, rest, defined);
    RotationArguments(g, p, v, defined);
  }

  /** The text after a rotation's name, `p)(x)`, is read as parameter `p` and qubit `x`, once `p` evaluates. */
  lemma {:induction false} RotationArguments(g: string, p: string, v: int, defined: set<string>)
    requires g in ParameterGates
    requires '(' !in p && ')' !in p && ',' !in p
    ensures ParseArguments(g, p + ")(" + IntToString(v) + ")", defined) ==
      if Undefined(p, defined) then Err(NameError) else Ok(GateInfo(g, [p], [v]))
  {
    var x := IntToString(v);
    var rest := p + ")(" + x + ")";
    RotationText(p, x);
    ClosingParen(x);
    PrintedInts(v);
    SplitWhole(p, ',');
    if Undefined(p, defined) {
      assert EvalAll([p], defined).Err?;
    } else {
      assert EvalAll([p], defined) == Ok([p]);
      ParameterArguments(g, rest, |p|, |p| + 1, |x|, defined);
    }
  }

  /** In `x)`, with no `)` in `x`, the first `)` closes `x`. */
  lemma {:induction false} ClosingParen(x: string)
    requires ')' !in x
    ensures IndexOf(x + ")", ')') == Ok(|x|) && (x + ")")[..|x|] == x
  {
    assert (x + ")")[..|x|] == x;
    IndexOfFirst(x + ")", ')', |x|);
  }

  /** A printed integer, read as a comma-separated group, is that one integer. */
  lemma {:induction false} PrintedInts(v: int)
    ensures ParseInts(Split(IntToString(v), ',')) == Ok([v])
  {
    var texts := seq(1, k requires 0 <= k < 1 => IntToString([v][k]));
    assert texts == [IntToString(v)];
    ReadBackInts([v]);
  }

  /** Text without `c` splits into itself. */
  lemma {:induction false} SplitWhole(s: string, c: char)
    requires c !in s
    ensures Split(s, c) == [s]
  {
  }

  /** `gate_info`'s reading of the text after a rotation's name, given where its parentheses are. */
  lemma {:induction false} ParameterArguments(g: string, rest: string, j: nat, i2: nat, j2: nat, defined: set<string>)
    requires g in ParameterGates
    requires IndexOf(rest, ')') == Ok(j) && IndexOf(rest, '(') == Ok(i2)
    requires EvalAll(Split(rest[..j], ','), defined).Ok?
    requires IndexOf(rest[i2 + 1..], ')') == Ok(j2)
    requires ParseInts(Split(rest[i2 + 1..][..j2], ',')).Ok?
    ensures ParseArguments(g, rest, defined) ==
      Ok(GateInfo(g, Split(rest[..j], ','), ParseInts(Split(rest[i2 + 1..][..j2], ',')).value))
  {
  }

  /** Where `gate_info` finds the parentheses in the text `p)(x)` after a rotation's name. */
  lemma {:induction false} RotationText(p: string, x: string)
    requires '(' !in p && ')' !in p
    ensures var rest := p + ")(" + x + ")";
      IndexOf(rest, ')') == Ok(|p|) && rest[..|p|] == p &&
      IndexOf(rest, '(') == Ok(|p| + 1) && rest[|p| + 2..] == x + ")"
  {
    var rest := p + ")(" + x + ")";
    assert rest[..|p|] == p;
    IndexOfFirst(rest, ')', |p|);
    assert rest[..|p| + 1] == p + ")";
    IndexOfFirst(rest, '(', |p| + 1);
    assert rest[|p| + 2..] == x + ")";
  }

  // ---------------------------------------------------------------------------------------------
  // `cirq_from_qusetta` (lines 83-122).

  /** A cirq operation: the cirq gate (`MAPPING.get(g, g)`), its parameter texts and line qubits. */
  datatype CirqOp = CirqOp(gate: string, params: seq<string>, qubits: seq<int>)

  type Moment = seq<CirqOp>

  type CirqCircuit = seq<Moment>

  /** A cut: the number of moments when it was found, and the line qubit of its wire. */
  datatype Cut = Cut(moment: nat, qubit: int)

  function CirqName(g: string): string
  {
    if g == "RX" then "rx" else if g == "RY" then "ry" else if g == "RZ" then "rz" else g
  }

  predicate Touches(m: Moment, qubits: seq<int>)
  {
    exists k, q :: 0 <= k < |m| && q in m[k].qubits && q in qubits
  }

  /**
   * Where `Circuit.append` puts an operation under cirq's default EARLIEST strategy: just after
   * the last moment that acts on one of its qubits, or in moment 0 when there is none.
   */
  function Earliest(c: CirqCircuit, qubits: seq<int>): (r: nat)
    ensures r <= |c|
    ensures forall k :: r <= k < |c| ==> !Touches(c[k], qubits)
    ensures r > 0 ==> Touches(c[r - 1], qubits)
  {
    if c == [] then 0
    else if Touches(c[|c| - 1], qubits) then |c|
    else Earliest(c[..|c| - 1], qubits)
  }

  /** `cirq_circuit.append(op)`: the operation joins moment `Earliest`, a new one at the end if need be. */
  function AppendOp(c: CirqCircuit, op: CirqOp): (r: CirqCircuit)
    ensures |r| == |c| || |r| == |c| + 1
    ensures |r| == |c| + 1 <==> Earliest(c, op.qubits) == |c|
  {
    var e := Earliest(c, op.qubits);
    if e == |c| then c + [[op]] else c[e := c[e] + [op]]
  }

  /** No two operations of a moment share a qubit. */
  predicate ValidCirqCircuit(c: CirqCircuit)
  {
    forall i, a, b, q :: 0 <= i < |c| && 0 <= a < |c[i]| && 0 <= b < |c[i]| && a != b && q in c[i][a].qubits ==>
      q !in c[i][b].qubits
  }

  /** Appending keeps the operations of each moment on disjoint qubits. */
  lemma {:induction false} AppendKeepsValid(c: CirqCircuit, op: CirqOp)
    requires ValidCirqCircuit(c)
    ensures ValidCirqCircuit(AppendOp(c, op))
  {
    var e := Earliest(c, op.qubits);
    var r: CirqCircuit := AppendOp(c, op);
    if e < |c| {
      forall a: int, b: int, q: int | 0 <= a < |r[e]| && 0 <= b < |r[e]| && a != b && q in r[e][a].qubits
        ensures q !in r[e][b].qubits
      {
        if a == |c[e]| {
          assert !Touches(c[e], op.qubits);
          assert r[e][b] == c[e][b];
        } else if b == |c[e]| {
          assert r[e][a] == c[e][a];
          assert !Touches(c[e], op.qubits);
        } else {
          assert r[e][a] == c[e][a] && r[e][b] == c[e][b];
        }
      }
      assert forall i :: 0 <= i < |r| && i != e ==> r[i] == c[i];
    }
  }

  /** The state of the loop: the circuit so far, `gate_occurrence_map` and `mlft_cuts`. */
  datatype Conversion = Conversion(circuit: CirqCircuit, counts: map<string, nat>, cuts: seq<Cut>)

  /** `str(qubits)` for a tuple of integers: `(3,)` for one element, `(1, 0)` for two. */
  function TupleString(qubits: seq<int>): string
  {
    var texts := seq(|qubits|, k requires 0 <= k < |qubits| => IntToString(qubits[k]));
    if |qubits| == 1 then "(" + texts[0] + ",)" else Group(texts)
  }

  /** `gate_name`: the gate name followed by the printed qubit tuple. */
  function Key(info: GateInfo): string
  {
    info.name + TupleString(info.qubits)
  }

  /** One pass of the loop body (lines 104-121) on a gate `gate_info` has read. */
  function Step(st: Conversion, info: GateInfo, position: Dict<string, (int, string)>): (r: Result<Conversion>)
    ensures r.Err? ==> r.error == ValueError
    ensures r.Ok? ==> |r.value.cuts| == |st.cuts| || |r.value.cuts| == |st.cuts| + 1
    ensures r.Ok? ==> r.value.cuts[..|st.cuts|] == st.cuts
    ensures r.Ok? && |r.value.cuts| == |st.cuts| + 1 ==> r.value.cuts[|st.cuts|].moment == |r.value.circuit|
  {
    var key := Key(info);
    var circuit := AppendOp(st.circuit, CirqOp(CirqName(info.name), info.params, info.qubits));
    if |info.qubits| > 1 then
      var count := (if key in st.counts then st.counts[key] else 0) + 1;
      var counts := st.counts[key := count];
      match Get(position, key)
      case None => Ok(Conversion(circuit, counts, st.cuts))
      case Some(entry) =>
        if count == entry.0 then
          var q :- ParseInt(entry.1);
          Ok(Conversion(circuit, counts, st.cuts + [Cut(|circuit|, q)]))
        else
          Ok(Conversion(circuit, counts, st.cuts))
    else
      Ok(Conversion(circuit, st.counts, st.cuts))
  }

  /** What the conversion hands back: the circuit and its cuts, or the error that stopped it. */
  function Outcome(c: Result<Conversion>): (r: Result<(CirqCircuit, seq<Cut>)>)
    ensures r.Err? <==> c.Err?
    ensures c.Err? ==> r.error == c.error
    ensures c.Ok? ==> r.value.0 == c.value.circuit && r.value.1 == c.value.cuts
  {
    match c
    case Err(e) => Err(e)
    case Ok(v) => Ok((v.circuit, v.cuts))
  }

  /** `gate_info` applied to each gate string, in the module's own scope. */
  function Parsed(gates: seq<string>): (r: seq<Result<GateInfo>>)
    ensures |r| == |gates| && forall i :: 0 <= i < |gates| ==> r[i] == ParseGate(gates[i], ConversionScope)
  {
    seq(|gates|, i requires 0 <= i < |gates| => ParseGate(gates[i], ConversionScope))
  }

  /** The loop over the read gates, from an empty circuit; the first error stops it. */
  function Run(infos: seq<Result<GateInfo>>, position: Dict<string, (int, string)>): (r: Result<Conversion>)
  {
    if infos == [] then Ok(Conversion([], map[], []))
    else
      var prev :- Run(infos[..|infos| - 1], position);
      var info :- infos[|infos| - 1];
      Step(prev, info, position)
  }

  /** Lines 97-122 on a list of gate strings. */
  function Converted(gates: seq<string>, position: Dict<string, (int, string)>): (r: Result<Conversion>)
    ensures r.Err? ==> r.error == ValueError || r.error == NotImplementedError || r.error == NameError
  {
    RunError(Parsed(gates), position);
    Run(Parsed(gates), position)
  }

  /** The loop fails only with a ValueError of its own or with the error of a gate string it read. */
  lemma {:induction false} RunError(infos: seq<Result<GateInfo>>, position: Dict<string, (int, string)>)
    ensures Run(infos, position).Err? ==>
      Run(infos, position).error == ValueError || exists i :: 0 <= i < |infos| && infos[i] == Err(Run(infos, position).error)
  {
    if infos != [] {
      var m := |infos| - 1;
      RunError(infos[..m], position);
      if Run(infos[..m], position).Err? {
        var e := Run(infos[..m], position).error;
        if e != ValueError {
          var i :| 0 <= i < m && infos[..m][i] == Err(e);
          assert infos[i] == Err(e);
        }
      }
    }
  }

  /** One more read gate: an unreadable one stops the loop with its error, a readable one is stepped. */
  lemma {:induction false} RunNext(infos: seq<Result<GateInfo>>, position: Dict<string, (int, string)>, i: nat, prev: Conversion)
    requires i < |infos| && Run(infos[..i], position) == Ok(prev)
    ensures infos[i].Err? ==> Run(infos[..i + 1], position) == Err(infos[i].error)
    ensures infos[i].Ok? ==> Run(infos[..i + 1], position) == Step(prev, infos[i].value, position)
  {
    var s := infos[..i + 1];
    assert s[..|s| - 1] == infos[..i];
    assert s[|s| - 1] == infos[i];
  }

  lemma {:induction false} RunPrefix(infos: seq<Result<GateInfo>>, position: Dict<string, (int, string)>, i: nat)
    requires i <= |infos| && Run(infos[..i], position).Err?
    ensures Run(infos, position) == Run(infos[..i], position)
    decreases |infos|
  {
    if i < |infos| {
      var m := |infos| - 1;
      assert infos[..m][..i] == infos[..i];
      RunPrefix(infos[..m], position, i);
      RunStopped(infos, position);
    } else {
      assert infos[..i] == infos;
    }
  }

  /** A loop that has failed before the last gate string fails the same way after it. */
  lemma {:induction false} RunStopped(infos: seq<Result<GateInfo>>, position: Dict<string, (int, string)>)
    requires infos != [] && Run(infos[..|infos| - 1], position).Err?
    ensures Run(infos, position) == Run(infos[..|infos| - 1], position)
  {
  }

  /** A gate string `gate_info` cannot read makes the whole conversion fail. */
  lemma {:induction false} UnreadableStops(gates: seq<string>, position: Dict<string, (int, string)>, i: nat)
    requires i < |gates| && ParseGate(gates[i], ConversionScope).Err?
    ensures Converted(gates, position).Err?
  {
    var infos := Parsed(gates);
    if Run(infos[..i], position).Err? {
      RunPrefix(infos, position, i);
    } else {
      RunNext(infos, position, i, Run(infos[..i], position).value);
      RunPrefix(infos, position, i + 1);
    }
  }

  /**
   * As written, a qiskit circuit holding a `u2` or `u3` gate (with printed parameters free of
   * parentheses and commas) is translated into qusetta text that `cirq_from_qusetta` cannot read.
   */
  lemma {:induction false} ExpansionStops(circuit: seq<Instruction>, n: nat, position: Dict<string, (int, string)>, m: nat)
    requires m < |circuit| && Translated(circuit, n).Ok?
    requires Upper(circuit[m].name) == "U2" || Upper(circuit[m].name) == "U3"
    requires forall j :: 0 <= j < |circuit[m].params| ==>
      '(' !in circuit[m].params[j].short && ')' !in circuit[m].params[j].short && ',' !in circuit[m].params[j].short
    ensures Converted(Translated(circuit, n).value, position).Err?
  {
    TranslatedOkPrefix(circuit, n, m + 1);
    var pre := circuit[..m + 1];
    assert pre[..m] == circuit[..m] && pre[m] == circuit[m];
    var before := Translated(circuit[..m], n).value;
    var gates := Translated(circuit, n).value;
    assert Translated(pre, n).value == before + Translate(circuit[m], n).value;
    ExpansionUnreadable(circuit[m], n);
    assert gates[|before|] == Translate(circuit[m], n).value[0];
    UnreadableStops(gates, position, |before|);
  }

  /** A translation that succeeds translates each prefix of the circuit into a prefix of its text. */
  lemma {:induction false} TranslatedOkPrefix(circuit: seq<Instruction>, n: nat, i: nat)
    requires i <= |circuit| && Translated(circuit, n).Ok?
    ensures Translated(circuit[..i], n).Ok? && Translated(circuit[..i], n).value <= Translated(circuit, n).value
    decreases |circuit|
  {
    if i < |circuit| {
      var m := |circuit| - 1;
      assert circuit[..m][..i] == circuit[..i];
      TranslatedOkPrefix(circuit[..m], n, i);
    } else {
      assert circuit[..i] == circuit;
    }
  }

  /** A read gate on two or more qubits with key `key`: the gates `gate_occurrence_map` counts. */
  predicate Counted(info: Result<GateInfo>, key: string)
  {
    info.Ok? && |info.value.qubits| > 1 && Key(info.value) == key
  }

  /** The number of counted gates with key `key`. */
  function Count(infos: seq<Result<GateInfo>>, key: string): nat
  {
    if infos == [] then 0
    else Count(infos[..|infos| - 1], key) + (if Counted(infos[|infos| - 1], key) then 1 else 0)
  }

  /**
   * After a run without error, `gate_occurrence_map` holds, for each key, the number of
   * multi-qubit gates with that key, and has no entry for a key no such gate has: single-qubit
   * gates are never counted.
   */
  lemma {:induction false} CountsAgree(infos: seq<Result<GateInfo>>, position: Dict<string, (int, string)>, key: string)
    requires Run(infos, position).Ok?
    ensures key in Run(infos, position).value.counts <==> Count(infos, key) > 0
    ensures key in Run(infos, position).value.counts ==> Run(infos, position).value.counts[key] == Count(infos, key)
  {
    if infos != [] {
      var m := |infos| - 1;
      RunLast(infos, position);
      CountsAgree(infos[..m], position, key);
      StepCounts(Run(infos[..m], position).value, infos[m].value, position, key, Count(infos[..m], key));
    }
  }

  /** One step counts the gate under its key exactly when it is multi-qubit. */
  lemma {:induction false} StepCounts(st: Conversion, info: GateInfo, position: Dict<string, (int, string)>, key: string, c: nat)
    requires Step(st, info, position).Ok?
    requires key in st.counts <==> c > 0
    requires key in st.counts ==> st.counts[key] == c
    ensures var c' := c + if |info.qubits| > 1 && Key(info) == key then 1 else 0;
      (key in Step(st, info, position).value.counts <==> c' > 0) &&
      (key in Step(st, info, position).value.counts ==> Step(st, info, position).value.counts[key] == c')
  {
  }

  /**
   * The gate at position `i` emits a cut: it is a multi-qubit gate whose key has a recorded
   * position, and its key has occurred exactly the recorded number of times up to and including it.
   */
  predicate Emits(infos: seq<Result<GateInfo>>, position: Dict<string, (int, string)>, i: nat)
    requires i < |infos|
  {
    var info := infos[i];
    info.Ok? && |info.value.qubits| > 1 &&
    Get(position, Key(info.value)).Some? &&
    Count(infos[..i + 1], Key(info.value)) == Get(position, Key(info.value)).value.0
  }

  /** The last gate adds a cut exactly when it emits one, and the cut records the moment count. */
  lemma {:induction false} LastCut(infos: seq<Result<GateInfo>>, position: Dict<string, (int, string)>)
    requires infos != [] && Run(infos, position).Ok?
    ensures var prev := Run(infos[..|infos| - 1], position);
      var st := Run(infos, position).value;
      prev.Ok? &&
      (|st.cuts| == |prev.value.cuts| + 1 <==> Emits(infos, position, |infos| - 1)) &&
      (|st.cuts| == |prev.value.cuts| + 1 ==> st.cuts[|prev.value.cuts|].moment == |st.circuit|)
  {
    var m := |infos| - 1;
    RunLast(infos, position);
    var prev := Run(infos[..m], position);
    var key := Key(infos[m].value);
    CountsAgree(infos[..m], position, key);
    StepCut(prev.value, infos[m].value, position, Count(infos[..m], key));
    assert infos[..m + 1] == infos;
  }

  /** A run that succeeds is the run of all but the last gate followed by one step. */
  lemma {:induction false} RunLast(infos: seq<Result<GateInfo>>, position: Dict<string, (int, string)>)
    requires infos != [] && Run(infos, position).Ok?
    ensures var m := |infos| - 1;
      Run(infos[..m], position).Ok? && infos[m].Ok? &&
      Run(infos, position) == Step(Run(infos[..m], position).value, infos[m].value, position)
  {
  }

  /** One step adds a cut exactly when the gate is multi-qubit and its new count is the recorded one. */
  lemma {:induction false} StepCut(st: Conversion, info: GateInfo, position: Dict<string, (int, string)>, c: nat)
    requires Step(st, info, position).Ok?
    requires Key(info) in st.counts <==> c > 0
    requires Key(info) in st.counts ==> st.counts[Key(info)] == c
    ensures |Step(st, info, position).value.cuts| == |st.cuts| + 1 <==>
      |info.qubits| > 1 && Get(position, Key(info)).Some? && c + 1 == Get(position, Key(info)).value.0
  {
  }

  lemma {:induction false} CountMonotone(infos: seq<Result<GateInfo>>, key: string, i: nat, j: nat)
    requires i <= j <= |infos|
    ensures Count(infos[..i], key) <= Count(infos[..j], key)
    decreases j - i
  {
    if i < j {
      CountMonotone(infos, key, i, j - 1);
      assert infos[..j][..j - 1] == infos[..j - 1];
    }
  }

  lemma {:induction false} CountStep(infos: seq<Result<GateInfo>>, key: string, j: nat)
    requires j < |infos|
    ensures Count(infos[..j + 1], key) == Count(infos[..j], key) + (if Counted(infos[j], key) then 1 else 0)
  {
    assert infos[..j + 1][..j] == infos[..j];
  }

  /** Two gates that emit cuts have different keys: each recorded position yields at most one cut. */
  lemma {:induction false} EmitsOnce(infos: seq<Result<GateInfo>>, position: Dict<string, (int, string)>, i: nat, j: nat)
    requires i < j < |infos|
    requires Emits(infos, position, i) && Emits(infos, position, j)
    ensures Key(infos[i].value) != Key(infos[j].value)
  {
    var key := Key(infos[i].value);
    if Key(infos[j].value) == key {
      CountMonotone(infos, key, i + 1, j);
      CountStep(infos, key, j);
      assert false;
    }
  }

  /** Every operation lands in a moment in which no other operation acts on its qubits. */
  lemma {:induction false} RunValid(infos: seq<Result<GateInfo>>, position: Dict<string, (int, string)>)
    requires Run(infos, position).Ok?
    ensures ValidCirqCircuit(Run(infos, position).value.circuit)
  {
    if infos != [] {
      var m := |infos| - 1;
      RunValid(infos[..m], position);
      var prev := Run(infos[..m], position).value;
      var info := infos[m].value;
      AppendKeepsValid(prev.circuit, CirqOp(CirqName(info.name), info.params, info.qubits));
    }
  }

  /**
   * The key `qiskit_to_qusetta` records for a cut position of a gate on two or more qubits is the
   * key `cirq_from_qusetta` computes for that gate when it reads its translation back.
   */
  lemma {:induction false} PositionKeyMatches(p: Position, instr: Instruction, n: nat)
    requires Renamed(Upper(instr.name)) in ParameterFreeGates
    requires instr.params == [] && |instr.qubits| > 1
    requires p.name == Renamed(Upper(instr.name)) && p.qubits == instr.qubits
    ensures Translate(instr, n).Ok? && ParseGate(Translate(instr, n).value[0], ConversionScope).Ok?
    ensures Key(ParseGate(Translate(instr, n).value[0], ConversionScope).value) == PositionKey(p, n)
  {
    ParameterFreeRoundTrip(instr, n, ConversionScope);
    var ys := seq(|instr.qubits|, k requires 0 <= k < |instr.qubits| => Reverse(n, instr.qubits[k]));
    assert seq(|ys|, k requires 0 <= k < |ys| => IntToString(ys[k])) == QubitTexts(n, p.qubits);
  }

  /** Lines 83-122, with the source's loop over the gate strings. */
  method CirqFromQusetta(gates: seq<string>, position: Dict<string, (int, string)>)
    returns (r: Result<(CirqCircuit, seq<Cut>)>)
    ensures r == Outcome(Converted(gates, position))
  {
    ghost var infos := Parsed(gates);
    var circuit: CirqCircuit := [];
    var cuts: seq<Cut> := [];
    var counts: map<string, nat> := map[];
    for i := 0 to |gates|
      invariant Run(infos[..i], position) == Ok(Conversion(circuit, counts, cuts))
    {
      var next := ReadGate(gates, position, infos, i, circuit, counts, cuts);
      if next.Err? {
        RunPrefix(infos, position, i + 1);
        return Err(next.error);
      }
      circuit, counts, cuts := next.value.circuit, next.value.counts, next.value.cuts;
    }
    assert infos[..|gates|] == infos;
    return Ok((circuit, cuts));
  }

  /** One pass of the loop of lines 104-121: `gate_info` on gate `i`, then its counter update and cut check. */
  method ReadGate(gates: seq<string>, position: Dict<string, (int, string)>, ghost infos: seq<Result<GateInfo>>,
                  i: nat, circuit: CirqCircuit, counts: map<string, nat>, cuts: seq<Cut>)
    returns (r: Result<Conversion>)
    requires infos == Parsed(gates) && i < |gates|
    requires Run(infos[..i], position) == Ok(Conversion(circuit, counts, cuts))
    ensures r == Run(infos[..i + 1], position)
  {
    var info := ParseGate(gates[i], ConversionScope);
    RunNext(infos, position, i, Conversion(circuit, counts, cuts));
    if info.Err? {
      return Err(info.error);
    }
    r := CountGate(circuit, counts, cuts, info.value, position);
  }

  /** The loop body of lines 104-121 for one read gate, with its counter update and cut check. */
  method CountGate(circuit: CirqCircuit, counts: map<string, nat>, cuts: seq<Cut>, info: GateInfo,
                   position: Dict<string, (int, string)>)
    returns (r: Result<Conversion>)
    ensures r == Step(Conversion(circuit, counts, cuts), info, position)
  {
    var GateInfo(g, params, qubits) := info;
    var gateName := g + TupleString(qubits);
    assert gateName == Key(info);
    var circuit' := AppendOp(circuit, CirqOp(CirqName(g), params, qubits));
    if |qubits| <= 1 {
      return Ok(Conversion(circuit', counts, cuts));
    }
    var counts' := counts;
    if gateName in counts' {
      counts' := counts'[gateName := counts'[gateName] + 1];
    } else {
      counts' := counts'[gateName := 1];
    }
    ghost var count := (if gateName in counts then counts[gateName] else 0) + 1;
    assert counts' == counts[gateName := count];
    var entry := Get(position, gateName);
    if entry.None? {
      return Ok(Conversion(circuit', counts', cuts));
    }
    var (occurrence, qubit) := entry.value;
    if counts'[gateName] != occurrence {
      return Ok(Conversion(circuit', counts', cuts));
    }
    var q := ParseInt(qubit);
    if q.Err? {
      return Err(q.error);
    }
    return Ok(Conversion(circuit', counts', cuts + [Cut(|circuit'|, q.value)]));
  }
}
