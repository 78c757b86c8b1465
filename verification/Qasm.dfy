/** `ir_to_openqasm` and `openqasm_to_ir` at character level. */
module Qasm {
  import opened Options
  import opened Text
  import opened Decimals
  import opened Tolerance
  import opened CircuitIR

  datatype QasmError = UnsupportedLine | SecondRegister | NoRegister | BadNumber | BadGate | InvalidIR

  datatype Parsed<+T> = Ok(value: T) | Err(error: QasmError) {
    predicate IsFailure() { Err? }
    function PropagateFailure<U>(): Parsed<U>
      requires Err?
    {
      Err(error)
    }
    function Extract(): T
      requires Ok?
    {
      value
    }
  }

  /** `-math.pi / 2`, the exact value of that float. */
  const MINUS_HALF_PI: Param := Decimal(true, 15707963267948965579989817342720925807952880859375, -49)

  // ---- printing ----

  function IntText(n: int): string { if n < 0 then "-" + Digits(-n) else Digits(n) }

  function RefText(q: int): string { "q[" + IntText(q) + "]" }

  function RefsText(qs: seq<int>): string {
    if qs == [] then "" else if |qs| == 1 then RefText(qs[0]) else RefText(qs[0]) + ", " + RefsText(qs[1..])
  }

  function ParamsText(ps: seq<Param>): string {
    if ps == [] then "" else if |ps| == 1 then Format(ps[0]) else Format(ps[0]) + ", " + ParamsText(ps[1..])
  }

  function Plain(name: string, qs: seq<int>): string { name + " " + RefsText(qs) + ";" }

  function WithParams(name: string, ps: string, qs: seq<int>): string { name + "(" + ps + ") " + RefsText(qs) + ";" }

  function PrintCz(op: GateOp): Option<string> {
    match op.gate
    case RX => Some(WithParams("rx", ParamsText(op.params), op.qubits))
    case RY => Some(WithParams("ry", ParamsText(op.params), op.qubits))
    case RZ => Some(WithParams("rz", ParamsText(op.params), op.qubits))
    case VIRTUAL_Z => if op.params == [] then None else Some(WithParams("rz", Format(op.params[0]), op.qubits))
    case CZ => Some(Plain("cz", op.qubits))
    case ID => Some(Plain("id", op.qubits))
    case _ => None
  }

  function PrintCnot(op: GateOp): Option<string> {
    match op.gate
    case X90 => Some(Plain("sx", op.qubits))
    case Y_MINUS_90 => Some(WithParams("ry", Format(MINUS_HALF_PI), op.qubits))
    case VIRTUAL_Z => if op.params == [] then None else Some(WithParams("rz", Format(op.params[0]), op.qubits))
    case CNOT => Some(Plain("cx", op.qubits))
    case ID => Some(Plain("id", op.qubits))
    case _ => None
  }

  /** `_ir_gate_to_openqasm`; None when it raises. */
  function PrintGate(op: GateOp, target: string): Option<string> {
    if target == "cz" then PrintCz(op) else if target == "cnot" then PrintCnot(op) else None
  }

  function PrintGates(ops: seq<GateOp>, target: string): Option<seq<string>> {
    if ops == [] then Some([])
    else
      var first :- PrintGate(ops[0], target);
      var rest :- PrintGates(ops[1..], target);
      Some([first] + rest)
  }

  function MeasureText(i: nat, q: int): string { "c[" + Digits(i) + "] = measure q[" + IntText(q) + "];" }

  function MeasureLines(qs: seq<int>): seq<string> { seq(|qs|, i requires 0 <= i < |qs| => MeasureText(i, qs[i])) }

  const HEADER := "OPENQASM 3.0;"
  const INCLUDE := "include \"stdgates.inc\";"

  function QubitLine(n: int): string { "qubit[" + IntText(n) + "] q;" }

  function BitLine(n: nat): string { "bit[" + Digits(n) + "] c;" }

  function Preamble(ir: NativeGateIR): seq<string> {
    [HEADER, INCLUDE, QubitLine(ir.numQubits)] + (if ir.measurements == [] then [] else [BitLine(|ir.measurements|)])
  }

  function PrintLines(ir: NativeGateIR): Option<seq<string>> {
    var gates :- PrintGates(ir.gates, ir.target);
    Some(Preamble(ir) + gates + MeasureLines(ir.measurements))
  }

  /** `ir_to_openqasm`; None when it raises. */
  function Print(ir: NativeGateIR): Option<string> {
    var lines :- PrintLines(ir);
    Some(Join(lines) + "\n")
  }

  // ---- the line patterns; each matches a prefix of the line ----

  /** `OPENQASM\s+[\d.]+\s*;` */
  function ScanHeader(s: string): Option<string> {
    var s1 :- Lit(s, "OPENQASM");
    var (_, s2) :- Some1(s1, Space);
    var (_, s3) :- Some1(s2, Version);
    Lit(Skip(s3, Space), ";")
  }

  /** `include\s+"[^"]+"\s*;` */
  function ScanInclude(s: string): Option<string> {
    var s1 :- Lit(s, "include");
    var (_, s2) :- Some1(s1, Space);
    var s3 :- Lit(s2, "\"");
    var (_, s4) :- Some1(s3, NotQuote);
    var s5 :- Lit(s4, "\"");
    Lit(Skip(s5, Space), ";")
  }

  /** `kind\[(\d+)]\s+\w+\s*;` for `qubit` and `bit`. */
  function ScanDecl(s: string, kind: string): Option<nat> {
    var s1 :- Lit(s, kind);
    var (ds, s2) :- Some1(s1, Digit);
    var s3 :- Lit(s2, "]");
    var (_, s4) :- Some1(s3, Space);
    var (_, s5) :- Some1(s4, Word);
    var _ :- Lit(Skip(s5, Space), ";");
    Some(Value(ds))
  }

  /** `\w+\[(\d+)]` */
  function ScanRef(s: string): (r: Option<(nat, string)>)
    ensures r.Some? ==> |r.value.1| < |s|
  {
    var (_, s1) :- Some1(s, Word);
    var s2 :- Lit(s1, "[");
    var (ds, s3) :- Some1(s2, Digit);
    var s4 :- Lit(s3, "]");
    Some((Value(ds), s4))
  }

  /** `\w+\[(\d+)]\s*=\s*measure\s+\w+\[(\d+)]\s*;`: the second index. */
  function ScanMeasure(s: string): Option<nat> {
    var (_, s1) :- ScanRef(s);
    var s2 :- Lit(Skip(s1, Space), "=");
    var s3 :- Lit(Skip(s2, Space), "measure");
    var (_, s4) :- Some1(s3, Space);
    var (q, s5) :- ScanRef(s4);
    var _ :- Lit(Skip(s5, Space), ";");
    Some(q)
  }

  /** `(?:\s*,\s*\w+\[\d+])*` */
  function ScanMore(s: string): (seq<nat>, string)
    decreases |s|
  {
    match Lit(Skip(s, Space), ",")
    case None => ([], s)
    case Some(s1) =>
      match ScanRef(Skip(s1, Space))
      case None => ([], s)
      case Some((q, s2)) => var (qs, rest) := ScanMore(s2); ([q] + qs, rest)
  }

  function ScanRefs(s: string): Option<(seq<nat>, string)> {
    var (q, s1) :- ScanRef(s);
    var (qs, rest) := ScanMore(s1);
    Some(([q] + qs, rest))
  }

  /** The optional parenthesised parameters: their text, empty if absent. */
  function ScanParams(s: string): (string, string) {
    match Lit(s, "(")
    case None => ("", s)
    case Some(s1) =>
      var n := Span(s1, NotClose);
      match Lit(s1[n..], ")")
      case None => ("", s)
      case Some(s2) => (s1[..n], s2)
  }

  /** `(\w+)(?:\(([^)]*)\))?\s+refs\s*;` */
  function ScanGate(s: string): Option<(string, string, seq<nat>)> {
    var (name, s1) :- Some1(s, Word);
    var (ps, s2) := ScanParams(s1);
    var (_, s3) :- Some1(s2, Space);
    var (qs, s4) :- ScanRefs(s3);
    var _ :- Lit(Skip(s4, Space), ";");
    Some((name, ps, qs))
  }

  datatype Item =
    | Ignored
    | Register(n: nat)
    | Measure(q: nat)
    | Gate(name: string, params: string, qubits: seq<nat>)
    | Unsupported

  /** The ordered tests of the parser on a stripped line. */
  function Classify(line: string): Item {
    if line == "" || "//" <= line || ScanHeader(line).Some? || ScanInclude(line).Some? then Ignored
    else if ScanDecl(line, "bit[").Some? then Ignored
    else if ScanDecl(line, "qubit[").Some? then Register(ScanDecl(line, "qubit[").value)
    else if ScanMeasure(line).Some? then Measure(ScanMeasure(line).value)
    else if ScanGate(line).Some? then var (name, ps, qs) := ScanGate(line).value; Gate(name, ps, qs)
    else Unsupported
  }

  // ---- parsing ----

  function SplitComma(s: string): seq<string>
    decreases |s|
  {
    var n := Span(s, NotComma);
    if n == |s| then [s] else [s[..n]] + SplitComma(s[n + 1..])
  }

  function ParseAll(pieces: seq<string>): Option<seq<Param>> {
    if pieces == [] then Some([])
    else
      var first :- ParseFloat(Strip(pieces[0]));
      var rest :- ParseAll(pieces[1..]);
      Some([first] + rest)
  }

  function ParseParams(text: string): Option<seq<Param>> {
    if text == "" then Some([]) else ParseAll(SplitComma(text))
  }

  function ReadCz(name: string, ps: seq<Param>, qs: seq<int>): Option<GateOp> {
    if name == "rx" then Some(GateOp(RX, qs, ps))
    else if name == "ry" then Some(GateOp(RY, qs, ps))
    else if name == "rz" then Some(GateOp(RZ, qs, ps))
    else if name == "cz" then Some(GateOp(CZ, qs, []))
    else if name == "id" then Some(GateOp(ID, qs, [ZERO_PARAM]))
    else None
  }

  function ReadCnot(name: string, ps: seq<Param>, qs: seq<int>): Option<GateOp> {
    if name == "sx" then Some(GateOp(X90, qs, []))
    else if name == "rz" then Some(GateOp(VIRTUAL_Z, qs, ps))
    else if name == "cx" then Some(GateOp(CNOT, qs, []))
    else if name == "id" then Some(GateOp(ID, qs, [ZERO_PARAM]))
    else if name == "ry" && |ps| == 1 && IsClose(ToReal(ps[0]), ToReal(MINUS_HALF_PI)) then
      Some(GateOp(Y_MINUS_90, qs, []))
    else None
  }

  /** `_openqasm_gate_to_ir` with the shape validation of the operation it builds. */
  function ReadGate(name: string, ps: seq<Param>, qs: seq<int>, target: string): Option<GateOp> {
    var op :- if target == "cz" then ReadCz(name, ps, qs)
              else if target == "cnot" then ReadCnot(name, ps, qs)
              else None;
    if ShapeOk(op) then Some(op) else None
  }

  /** What the parser has collected so far. */
  datatype Progress = Progress(num: Option<nat>, gates: seq<GateOp>, measurements: seq<int>)

  const START := Progress(None, [], [])

  function ParseLine(st: Progress, raw: string, target: string): Parsed<Progress> {
    match Classify(Strip(raw))
    case Ignored => Ok(st)
    case Register(n) => if st.num.Some? then Err(SecondRegister) else Ok(st.(num := Some(n)))
    case Measure(q) => Ok(st.(measurements := st.measurements + [q]))
    case Gate(name, text, qs) =>
      (match ParseParams(text)
       case None => Err(BadNumber)
       case Some(ps) =>
         match ReadGate(name, ps, qs, target)
         case None => Err(BadGate)
         case Some(op) => Ok(st.(gates := st.gates + [op])))
    case Unsupported => Err(UnsupportedLine)
  }

  function ParseLines(st: Progress, lines: seq<string>, target: string): Parsed<Progress>
    decreases |lines|
  {
    if lines == [] then Ok(st)
    else
      var st1 :- ParseLine(st, lines[0], target);
      ParseLines(st1, lines[1..], target)
  }

  function Finish(st: Progress, target: string, metadata: Metadata): Parsed<NativeGateIR> {
    if st.num.None? then Err(NoRegister)
    else
      var ir := NativeGateIR(target, st.num.value, st.gates, st.measurements, metadata);
      if ValidIR(ir) then Ok(ir) else Err(InvalidIR)
  }

  /** `openqasm_to_ir`. */
  function Parse(text: string, target: string, metadata: Metadata): Parsed<NativeGateIR> {
    var st :- ParseLines(START, SplitLines(Strip(text)), target);
    Finish(st, target, metadata)
  }

  // ---- the two conversions as the loops they are ----

  /** The parser's loop over the lines. */
  method OpenqasmToIr(text: string, target: string, metadata: Metadata) returns (r: Parsed<NativeGateIR>)
    ensures r == Parse(text, target, metadata)
  {
    var lines := SplitLines(Strip(text));
    var st := START;
    var i := 0;
    while i < |lines|
      invariant i <= |lines|
      invariant ParseLines(START, lines, target) == ParseLines(st, lines[i..], target)
    {
      var next := ParseLine(st, lines[i], target);
      assert lines[i..][0] == lines[i] && lines[i..][1..] == lines[i + 1..];
      if next.Err? { return Err(next.error); }
      st := next.value;
      i := i + 1;
    }
    r := Finish(st, target, metadata);
  }

  function Prepend(lines: seq<string>, rest: Option<seq<string>>): Option<seq<string>> {
    if rest.None? then None else Some(lines + rest.value)
  }

  lemma PrependEnds(lines: seq<string>, rest: Option<seq<string>>)
    ensures Prepend([], rest) == rest && Prepend(lines, Some([])) == Some(lines)
  {
    assert rest.Some? ==> [] + rest.value == rest.value;
    assert lines + [] == lines;
  }

  /** The printer's loop over the gates. */
  method PrintEach(ops: seq<GateOp>, target: string) returns (r: Option<seq<string>>)
    ensures r == PrintGates(ops, target)
  {
    hide PrintGate;
    var lines := [];
    var i := 0;
    assert ops[0..] == ops;
    PrependEnds([], PrintGates(ops, target));
    while i < |ops|
      invariant i <= |ops| && PrintGates(ops, target) == Prepend(lines, PrintGates(ops[i..], target))
    {
      var line := PrintGate(ops[i], target);
      assert ops[i..][0] == ops[i] && ops[i..][1..] == ops[i + 1..];
      if line.None? { return None; }
      ghost var rest := PrintGates(ops[i + 1..], target);
      assert rest.Some? ==> lines + ([line.value] + rest.value) == (lines + [line.value]) + rest.value;
      lines := lines + [line.value];
      i := i + 1;
    }
    assert ops[i..] == [];
    PrependEnds(lines, None);
    r := Some(lines);
  }

  /** The printer's loop over the measurements. */
  method PrintMeasurements(qs: seq<int>) returns (lines: seq<string>)
    ensures lines == MeasureLines(qs)
  {
    lines := [];
    var i := 0;
    while i < |qs|
      invariant i <= |qs| && lines == MeasureLines(qs)[..i]
    {
      lines := lines + [MeasureText(i, qs[i])];
      i := i + 1;
    }
  }

  /** `ir_to_openqasm`. */
  method IrToOpenqasm(ir: NativeGateIR) returns (r: Option<string>)
    ensures r == Print(ir)
  {
    var gates := PrintEach(ir.gates, ir.target);
    if gates.None? { return None; }
    var measures := PrintMeasurements(ir.measurements);
    r := Some(Join(Preamble(ir) + gates.value + measures) + "\n");
  }
}
