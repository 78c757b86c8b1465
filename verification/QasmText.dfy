/** The printed program as literal text. */
module QasmText {
  import opened Options
  import opened Text
  import opened Decimals
  import opened CircuitIR
  import opened Qasm
  import opened QasmRoundTrip
  import opened QasmTables

  // ---- the one angle that is printed as a constant ----

  lemma TenTo35()
    ensures Pow10(35) == 100000000000000000000000000000000000
  {
    assert Pow10(4) == 10000 && Pow10(3) == 1000;
    PowAdd(4, 4);
    PowAdd(8, 8);
    PowAdd(16, 16);
    PowAdd(32, 3);
  }

  lemma HalfPiDigits()
    ensures |Digits(MINUS_HALF_PI.mant)| == 50
  {
    var n := MINUS_HALF_PI.mant;
    TenTo49();
    PowAdd(49, 1);
    assert Pow10(1) == 10;
    DigitsBound(n);
    hide Digits, Pow10;
    DigitsShort(n, 50);
    PowOrder(49, |Digits(n)|);
  }

  lemma HalfPiRounded()
    ensures Round15(MINUS_HALF_PI) == Decimal(true, 15707963267949, -13)
  {
    HalfPiDigits();
    TenTo35();
    hide Digits, Pow10;
    assert RoundHalfEven(MINUS_HALF_PI.mant, Pow10(35)) == 157079632679490;
    assert Normalize(true, 157079632679490, -14) == Decimal(true, 15707963267949, -13);
  }

  lemma NextDigit(n: nat, d: nat, ds: string)
    requires n >= 1 && d < 10 && Digits(n) == ds
    ensures Digits(10 * n + d) == ds + [DigitChar(d)]
  {
    assert (10 * n + d) / 10 == n && (10 * n + d) % 10 == d;
  }

  lemma RoundedDigits()
    ensures Digits(15707963267949) == "15707963267949"
  {
    FirstSeven();
    hide Digits;
    NextDigit(1570796, 3, "1570796");
    NextDigit(15707963, 2, "15707963");
    NextDigit(157079632, 6, "157079632");
    NextDigit(1570796326, 7, "1570796326");
    NextDigit(15707963267, 9, "15707963267");
    NextDigit(157079632679, 4, "157079632679");
    NextDigit(1570796326794, 9, "1570796326794");
  }

  lemma FirstSeven()
    ensures Digits(1570796) == "1570796"
  {
    assert Digits(1) == "1";
    hide Digits;
    NextDigit(1, 5, "1");
    NextDigit(15, 7, "15");
    NextDigit(157, 0, "157");
    NextDigit(1570, 7, "1570");
    NextDigit(15707, 9, "15707");
    NextDigit(157079, 6, "157079");
  }

  /** `.15g` of -pi/2. */
  lemma HalfPiText()
    ensures Format(MINUS_HALF_PI) == "-1.5707963267949"
  {
    HalfPiRounded();
    RoundedDigits();
    hide Round15, Digits;
    var ds := "15707963267949";
    assert Magnitude(ds, -13) == ds[..1] + "." + ds[1..];
    assert ds[..1] + "." + ds[1..] == "1.5707963267949";
  }

  // ---- gates ----

  function Q(q: nat): string { "q[" + Digits(q) + "]" }

  /** The text of each gate on each target. */
  ghost predicate PrintsAs(op: GateOp, target: string, line: string)
    requires OpOk(op, target)
  {
    var a := Q(op.qubits[0]);
    if target == "cz" then
      match op.gate
      case RX => line == "rx(" + Format(op.params[0]) + ") " + a + ";"
      case RY => line == "ry(" + Format(op.params[0]) + ") " + a + ";"
      case RZ => line == "rz(" + Format(op.params[0]) + ") " + a + ";"
      case CZ => line == "cz " + (a + ", " + Q(op.qubits[1])) + ";"
      case ID => line == "id " + a + ";"
    else if target == "cnot" then
      match op.gate
      case X90 => line == "sx " + a + ";"
      case Y_MINUS_90 => line == "ry(-1.5707963267949) " + a + ";"
      case VIRTUAL_Z => line == "rz(" + Format(op.params[0]) + ") " + a + ";"
      case CNOT => line == "cx " + (a + ", " + Q(op.qubits[1])) + ";"
      case ID => line == "id " + a + ";"
      case _ => false
    else false
  }

  lemma OneRef(qs: seq<int>)
    requires |qs| == 1 && qs[0] >= 0
    ensures RefsText(qs) == Q(qs[0])
  {
    hide Digits;
  }

  lemma TwoRefs(qs: seq<int>)
    requires |qs| == 2 && qs[0] >= 0 && qs[1] >= 0
    ensures RefsText(qs) == Q(qs[0]) + ", " + Q(qs[1])
  {
    OneRef(qs[1..]);
    hide Digits;
  }

  /** The printer prints exactly these texts for the gates of a valid circuit, and nothing for the others. */
  lemma PrintsExact(op: GateOp, target: string, line: string)
    requires OpOk(op, target)
    ensures PrintGate(op, target) == Some(line) <==> PrintsAs(op, target, line)
  {
    if |op.qubits| == 1 { OneRef(op.qubits); } else { TwoRefs(op.qubits); }
    HalfPiText();
    hide RefsText, Format, Q;
    if target == "cz" { CzPrints(op, line); } else if target == "cnot" { CnotPrints(op, line); }
  }

  lemma CzPrints(op: GateOp, line: string)
    requires OpOk(op, "cz")
    requires RefsText(op.qubits) == if |op.qubits| == 1 then Q(op.qubits[0])
      else Q(op.qubits[0]) + ", " + Q(op.qubits[1])
    ensures PrintGate(op, "cz") == Some(line) <==> PrintsAs(op, "cz", line)
  {
    hide RefsText, Format, Q;
    var a := Q(op.qubits[0]);
    if op.gate == CZ { Spaced("cz", a + ", " + Q(op.qubits[1]), "cz "); }
    else if op.gate == ID { Spaced("id", a, "id "); }
    else {
      var f := Format(op.params[0]);
      assert ParamsText(op.params) == f;
      hide ParamsText;
      if op.gate == RX { Opened("rx", f, a, "rx(" + f + ") "); }
      else if op.gate == RY { Opened("ry", f, a, "ry(" + f + ") "); }
      else { Opened("rz", f, a, "rz(" + f + ") "); }
    }
  }

  lemma CnotPrints(op: GateOp, line: string)
    requires OpOk(op, "cnot") && Format(MINUS_HALF_PI) == "-1.5707963267949"
    requires RefsText(op.qubits) == if |op.qubits| == 1 then Q(op.qubits[0])
      else Q(op.qubits[0]) + ", " + Q(op.qubits[1])
    ensures PrintGate(op, "cnot") == Some(line) <==> PrintsAs(op, "cnot", line)
  {
    hide RefsText, Format, Q, ParamsText;
    var a := Q(op.qubits[0]);
    if op.gate == CNOT { Spaced("cx", a + ", " + Q(op.qubits[1]), "cx "); }
    else if op.gate == ID { Spaced("id", a, "id "); }
    else if op.gate == X90 { Spaced("sx", a, "sx "); }
    else if op.gate == Y_MINUS_90 { Opened("ry", "-1.5707963267949", a, "ry(-1.5707963267949) "); }
    else if op.gate == VIRTUAL_Z { Opened("rz", Format(op.params[0]), a, "rz(" + Format(op.params[0]) + ") "); }
  }

  lemma Spaced(name: string, refs: string, start: string)
    requires start == name + " "
    ensures name + " " + refs + ";" == start + refs + ";"
  {
  }

  lemma Opened(name: string, ps: string, refs: string, start: string)
    requires start == name + "(" + ps + ") "
    ensures name + "(" + ps + ") " + refs + ";" == start + refs + ";"
  {
  }

  // ---- whole programs ----

  ghost predicate ProgramText(ir: NativeGateIR, lines: seq<string>) {
    var (k, g) := (|ir.measurements|, |ir.gates|);
    var p := if k == 0 then 3 else 4;
    && |lines| == p + g + k
    && PreambleText(ir, lines[..p])
    && GatesText(ir.gates, ir.target, lines[p..p + g])
    && MeasuresText(ir.measurements, lines[p + g..])
  }

  ghost predicate PreambleText(ir: NativeGateIR, lines: seq<string>) {
    && ir.numQubits >= 0
    && ["OPENQASM 3.0;", "include \"stdgates.inc\";", "qubit[" + Digits(ir.numQubits) + "] q;"] <= lines
    && (if ir.measurements == [] then |lines| == 3
        else |lines| == 4 && lines[3] == "bit[" + Digits(|ir.measurements|) + "] c;")
  }

  ghost predicate GatesText(ops: seq<GateOp>, target: string, lines: seq<string>) {
    OpsOk(ops, target) && |lines| == |ops| && forall i :: 0 <= i < |ops| ==> PrintsAs(ops[i], target, lines[i])
  }

  ghost predicate MeasuresText(qs: seq<int>, lines: seq<string>) {
    && NonNeg(qs) && |lines| == |qs|
    && forall i :: 0 <= i < |qs| ==> lines[i] == "c[" + Digits(i) + "] = measure q[" + Digits(qs[i]) + "];"
  }

  lemma {:induction false} GateTexts(ops: seq<GateOp>, target: string)
    requires OpsOk(ops, target) && PrintGates(ops, target).Some?
    ensures GatesText(ops, target, PrintGates(ops, target).value)
    decreases |ops|
  {
    hide OpOk, PrintGate, PrintsAs;
    if ops != [] {
      PrintsExact(ops[0], target, PrintGate(ops[0], target).value);
      GateTexts(ops[1..], target);
      assert forall i :: 1 <= i < |ops| ==> ops[i] == ops[1..][i - 1];
    }
  }

  lemma PreambleTexts(ir: NativeGateIR)
    requires ir.numQubits >= 0
    ensures PreambleText(ir, Preamble(ir))
  {
    hide Digits;
  }

  lemma MeasureTexts(qs: seq<int>)
    requires NonNeg(qs)
    ensures MeasuresText(qs, MeasureLines(qs))
  {
    hide Digits;
  }

  /** The text printed from a valid circuit, line by line. */
  lemma PrintedText(ir: NativeGateIR)
    requires ValidIR(ir) && Print(ir).Some?
    ensures PrintLines(ir).Some? && ProgramText(ir, PrintLines(ir).value)
    ensures Print(ir).value == Join(PrintLines(ir).value) + "\n"
  {
    ValidParts(ir);
    assert ir.numQubits >= 0;
    GateTexts(ir.gates, ir.target);
    PreambleTexts(ir);
    MeasureTexts(ir.measurements);
    var (a, b, c) := (Preamble(ir), PrintGates(ir.gates, ir.target).value, MeasureLines(ir.measurements));
    assert |a| == (if ir.measurements == [] then 3 else 4) && |b| == |ir.gates| && |c| == |ir.measurements| by {
      hide Digits, PrintGates, Preamble, MeasureLines, PrintsAs;
    }
    hide PrintGates, ValidIR, OpsOk, Normal, Preamble, MeasureLines, PreambleText, GatesText, MeasuresText, Digits;
    ThreeParts(a, b, c);
  }
}
