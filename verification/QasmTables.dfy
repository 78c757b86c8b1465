/** The parser and the printer in the words of the source: which line is which item, which gate each name
    stands for on each target, and which texts are accepted with which result. */
module QasmTables {
  import opened Options
  import opened Text
  import opened Decimals
  import opened Tolerance
  import opened CircuitIR
  import opened Qasm
  import opened QasmPatterns

  // ---- lines ----

  ghost predicate BitMatch(line: string) { exists n :: DeclMatch(line, "bit[", n) }

  ghost predicate IgnoredLine(line: string) {
    line == "" || "//" <= line || HeaderMatch(line) || IncludeMatch(line) || BitMatch(line)
  }

  ghost predicate QubitMatch(line: string) { exists n :: DeclMatch(line, "qubit[", n) }

  ghost predicate AnyMeasure(line: string) { exists q :: MeasureMatch(line, q) }

  /** The ordered tests, in terms of the regular expressions. */
  ghost predicate LineIs(line: string, item: Item) {
    match item
    case Ignored => IgnoredLine(line)
    case Register(n) => !IgnoredLine(line) && DeclMatch(line, "qubit[", n)
    case Measure(q) => !IgnoredLine(line) && !QubitMatch(line) && MeasureMatch(line, q)
    case Gate(name, ps, qs) =>
      !IgnoredLine(line) && !QubitMatch(line) && !AnyMeasure(line) && GateMatch(line, name, ps, qs)
    case Unsupported =>
      && !IgnoredLine(line) && !QubitMatch(line) && !AnyMeasure(line)
      && forall name, ps, qs :: !GateMatch(line, name, ps, qs)
  }

  lemma IgnoredExact(line: string)
    ensures IgnoredLine(line) <==>
      line == "" || "//" <= line || ScanHeader(line).Some? || ScanInclude(line).Some? || ScanDecl(line, "bit[").Some?
  {
    hide ScanHeader, ScanInclude, ScanDecl, HeaderMatch, IncludeMatch, DeclMatch;
    HeaderExact(line);
    IncludeExact(line);
    if ScanDecl(line, "bit[").Some? { DeclExact(line, "bit[", ScanDecl(line, "bit[").value); }
    if BitMatch(line) {
      var n :| DeclMatch(line, "bit[", n);
      DeclExact(line, "bit[", n);
    }
  }

  lemma QubitExact(line: string)
    ensures QubitMatch(line) <==> ScanDecl(line, "qubit[").Some?
    ensures forall n: nat :: ScanDecl(line, "qubit[") == Some(n) <==> DeclMatch(line, "qubit[", n)
  {
    hide ScanDecl, DeclMatch;
    forall n: nat ensures ScanDecl(line, "qubit[") == Some(n) <==> DeclMatch(line, "qubit[", n) {
      DeclExact(line, "qubit[", n);
    }
    if ScanDecl(line, "qubit[").Some? { assert DeclMatch(line, "qubit[", ScanDecl(line, "qubit[").value); }
  }

  lemma AnyMeasureExact(line: string)
    ensures AnyMeasure(line) <==> ScanMeasure(line).Some?
    ensures forall q: nat :: ScanMeasure(line) == Some(q) <==> MeasureMatch(line, q)
  {
    hide ScanMeasure, MeasureMatch;
    forall q: nat ensures ScanMeasure(line) == Some(q) <==> MeasureMatch(line, q) { MeasureExact(line, q); }
    if ScanMeasure(line).Some? { assert MeasureMatch(line, ScanMeasure(line).value); }
  }

  /** Every line is exactly one item, the one the regular expressions give it. */
  lemma ClassifyExact(line: string, item: Item)
    ensures Classify(line) == item <==> LineIs(line, item)
  {
    hide ScanHeader, ScanInclude, ScanDecl, ScanMeasure, ScanGate, IgnoredLine, QubitMatch, AnyMeasure, GateMatch,
         DeclMatch, MeasureMatch;
    IgnoredExact(line);
    QubitExact(line);
    AnyMeasureExact(line);
    forall name, ps, qs ensures ScanGate(line) == Some((name, ps, qs)) <==> GateMatch(line, name, ps, qs) {
      GateExact(line, name, ps, qs);
    }
    if ScanGate(line).Some? {
      var (name, ps, qs) := ScanGate(line).value;
      assert GateMatch(line, name, ps, qs);
    }
  }

  // ---- names ----

  /** The angle test: `ry` stands for `y_minus_90` exactly this close to the float -pi/2. */
  ghost predicate IsMinusHalfPi(x: real) {
    Abs(x + 1.5707963267948965579989817342720925807952880859375)
      <= 0.000000000001 * Largest(1.0, Abs(x), 1.5707963267948965579989817342720925807952880859375)
  }

  function Largest(a: real, b: real, c: real): real {
    if a >= b && a >= c then a else if b >= c then b else c
  }

  lemma {:induction false} ScaleDown(k: nat)
    ensures Scale(0 - k) * (Pow10(k) as real) == 1.0
    decreases k
  {
    if k > 0 {
      ScaleDown(k - 1);
      var (s, p) := (Scale(1 - k), Pow10(k - 1) as real);
      assert Scale(0 - k) == s / 10.0 && Pow10(k) as real == 10.0 * p;
      TenCancels(s, p);
    }
  }

  lemma TenCancels(s: real, p: real)
    ensures s / 10.0 * (10.0 * p) == s * p
  {
  }

  lemma TenTo49()
    ensures Pow10(49) == 10000000000000000000000000000000000000000000000000
  {
    assert Pow10(4) == 10000 && Pow10(1) == 10;
    PowAdd(4, 4);
    PowAdd(8, 4);
    PowAdd(12, 12);
    PowAdd(24, 24);
    PowAdd(48, 1);
  }

  /** The constant is the exact value of the float. */
  lemma HalfPiValue()
    ensures ToReal(MINUS_HALF_PI) == -1.5707963267948965579989817342720925807952880859375
  {
    ScaleDown(49);
    TenTo49();
    var (m, p, x) := (MINUS_HALF_PI.mant as real, Pow10(49) as real,
      1.5707963267948965579989817342720925807952880859375);
    assert m == x * p;
    Cancels(x, p, Scale(-49));
  }

  lemma Cancels(x: real, p: real, s: real)
    requires s * p == 1.0
    ensures x * p * s == x
  {
    assert x * p * s == x * (s * p);
  }

  lemma AngleExact(d: Param)
    ensures IsClose(ToReal(d), ToReal(MINUS_HALF_PI)) <==> IsMinusHalfPi(ToReal(d))
  {
    HalfPiValue();
    hide ToReal;
    var x := ToReal(d);
    var h := 1.5707963267948965579989817342720925807952880859375;
    assert Abs(x - -h) == Abs(x + h) && Abs(-h) == h;
  }

  /** What each name yields on each target, with the numbers of qubits and parameters it needs. */
  ghost predicate Yields(name: string, ps: seq<Param>, qs: seq<int>, target: string, op: GateOp) {
    && op.qubits == qs
    && ((target == "cz"
         && (|| (name == "rx" && op.gate == RX && |qs| == 1 && |ps| == 1 && op.params == ps)
             || (name == "ry" && op.gate == RY && |qs| == 1 && |ps| == 1 && op.params == ps)
             || (name == "rz" && op.gate == RZ && |qs| == 1 && |ps| == 1 && op.params == ps)
             || (name == "cz" && op.gate == CZ && |qs| == 2 && op.params == [])
             || (name == "id" && op.gate == ID && |qs| == 1 && op.params == [Decimal(false, 0, 0)])))
        || (target == "cnot"
            && (|| (name == "sx" && op.gate == X90 && |qs| == 1 && op.params == [])
                || (name == "rz" && op.gate == VIRTUAL_Z && |qs| == 1 && |ps| == 1 && op.params == ps)
                || (name == "cx" && op.gate == CNOT && |qs| == 2 && op.params == [])
                || (name == "id" && op.gate == ID && |qs| == 1 && op.params == [Decimal(false, 0, 0)])
                || (name == "ry" && op.gate == Y_MINUS_90 && |qs| == 1 && |ps| == 1 && IsMinusHalfPi(ToReal(ps[0]))
                    && op.params == []))))
  }

  lemma YieldsExact(name: string, ps: seq<Param>, qs: seq<int>, target: string, op: GateOp)
    ensures ReadGate(name, ps, qs, target) == Some(op) <==> Yields(name, ps, qs, target, op)
  {
    if |ps| == 1 { AngleExact(ps[0]); }
    hide IsClose, ToReal, IsMinusHalfPi;
    if target == "cz" { CzYields(name, ps, qs, op); } else if target == "cnot" { CnotYields(name, ps, qs, op); }
  }

  lemma CzYields(name: string, ps: seq<Param>, qs: seq<int>, op: GateOp)
    ensures ReadGate(name, ps, qs, "cz") == Some(op) <==> Yields(name, ps, qs, "cz", op)
  {
    hide IsClose, ToReal, IsMinusHalfPi;
  }

  lemma CnotYields(name: string, ps: seq<Param>, qs: seq<int>, op: GateOp)
    requires |ps| == 1 ==> (IsClose(ToReal(ps[0]), ToReal(MINUS_HALF_PI)) <==> IsMinusHalfPi(ToReal(ps[0])))
    ensures ReadGate(name, ps, qs, "cnot") == Some(op) <==> Yields(name, ps, qs, "cnot", op)
  {
    hide IsClose, ToReal, IsMinusHalfPi;
  }

  // ---- validation ----

  /** Qubits and parameters each gate takes. */
  ghost predicate Takes(g: NativeGate, qubits: nat, params: nat) {
    || (g in {RX, RY, RZ, ID, VIRTUAL_Z} && qubits == 1 && params == 1)
    || (g in {X90, Y_MINUS_90} && qubits == 1 && params == 0)
    || (g in {CZ, ISWAP, CNOT} && qubits == 2 && params == 0)
    || (g == CP && qubits == 2 && params == 1)
  }

  /** The gates each target allows: three rotations and `id` everywhere, and its own. */
  ghost predicate Allows(target: string, g: NativeGate) {
    || (target in {"cz", "iswap", "pcz", "cnot"} && g in {RX, RY, RZ, ID})
    || (target == "cz" && g == CZ) || (target == "iswap" && g == ISWAP) || (target == "pcz" && g == CP)
    || (target == "cnot" && g in {X90, Y_MINUS_90, VIRTUAL_Z, CNOT})
  }

  lemma ShapeExact(op: GateOp)
    ensures ShapeOk(op) <==> Takes(op.gate, |op.qubits|, |op.params|)
  {
  }

  lemma LegalExact(target: string, g: NativeGate)
    ensures LegalGates(target).Some? <==> target in {"cz", "iswap", "pcz", "cnot"}
    ensures LegalGates(target).Some? ==> (g in LegalGates(target).value <==> Allows(target, g))
  {
  }

  /** The validators accept exactly these circuits. */
  lemma ValidExact(ir: NativeGateIR)
    ensures ValidIR(ir) <==>
      && ir.target in {"cz", "iswap", "pcz", "cnot"} && 1 <= ir.numQubits <= 50
      && 0 <= ir.metadata.optimizationLevel <= 3
      && (forall i :: 0 <= i < |ir.gates| ==>
            && Takes(ir.gates[i].gate, |ir.gates[i].qubits|, |ir.gates[i].params|)
            && Allows(ir.target, ir.gates[i].gate)
            && (forall q | q in ir.gates[i].qubits :: 0 <= q < ir.numQubits))
      && (forall q | q in ir.measurements :: 0 <= q < ir.numQubits)
  {
    LegalExact(ir.target, RX);
    forall i | 0 <= i < |ir.gates|
      ensures ShapeOk(ir.gates[i]) <==> Takes(ir.gates[i].gate, |ir.gates[i].qubits|, |ir.gates[i].params|)
      ensures LegalGates(ir.target).Some? ==>
        (ir.gates[i].gate in LegalGates(ir.target).value <==> Allows(ir.target, ir.gates[i].gate))
      ensures InRange(ir.gates[i].qubits, ir.numQubits) <==> forall q | q in ir.gates[i].qubits :: 0 <= q < ir.numQubits
    {
      ShapeExact(ir.gates[i]);
      LegalExact(ir.target, ir.gates[i].gate);
      RangeExact(ir.gates[i].qubits, ir.numQubits);
    }
    RangeExact(ir.measurements, ir.numQubits);
    hide ShapeOk, Takes, Allows, LegalGates, InRange;
  }

  lemma RangeExact(qs: seq<int>, n: int)
    ensures InRange(qs, n) <==> forall q | q in qs :: 0 <= q < n
  {
    if forall q | q in qs :: 0 <= q < n {
      forall i | 0 <= i < |qs| ensures 0 <= qs[i] < n { assert qs[i] in qs; }
    }
  }

  // ---- parameters ----

  function CommaJoin(pieces: seq<string>): string
    requires pieces != []
  {
    if |pieces| == 1 then pieces[0] else pieces[0] + "," + CommaJoin(pieces[1..])
  }

  /** The parameter text is cut at every comma and nowhere else. */
  lemma {:induction false} SplitCommaExact(s: string)
    ensures var pieces := SplitComma(s);
      pieces != [] && CommaJoin(pieces) == s && forall i :: 0 <= i < |pieces| ==> ',' !in pieces[i]
    decreases |s|
  {
    var n := Span(s, NotComma);
    SpanStops(s, NotComma);
    assert ',' !in s[..n] by { assert forall i :: 0 <= i < n ==> In(s[..n][i], NotComma); }
    if n < |s| {
      SplitCommaExact(s[n + 1..]);
      assert s[n..][0] == s[n] == ',';
      var rest := SplitComma(s[n + 1..]);
      assert ([s[..n]] + rest)[1..] == rest;
      assert s == s[..n] + "," + s[n + 1..];
    } else {
      assert s[..n] == s;
    }
  }

  // ---- texts ----

  /** The gate a line stands for, if it is a gate line that can be read. */
  function LineGate(line: string, target: string): Option<GateOp> {
    match Classify(Strip(line))
    case Gate(name, text, qs) => (var ps :- ParseParams(text); ReadGate(name, ps, qs, target))
    case _ => None
  }

  predicate LineAccepted(line: string, target: string) {
    match Classify(Strip(line))
    case Unsupported => false
    case Gate(_, _, _) => LineGate(line, target).Some?
    case _ => true
  }

  function GatesIn(lines: seq<string>, target: string): seq<GateOp> {
    if lines == [] then []
    else
      var first := LineGate(lines[0], target);
      (if first.Some? then [first.value] else []) + GatesIn(lines[1..], target)
  }

  function RegistersIn(lines: seq<string>): seq<nat> {
    if lines == [] then []
    else
      var item := Classify(Strip(lines[0]));
      (if item.Register? then [item.n] else []) + RegistersIn(lines[1..])
  }

  function MeasuresIn(lines: seq<string>): seq<int> {
    if lines == [] then []
    else
      var item := Classify(Strip(lines[0]));
      (if item.Measure? then [item.q] else []) + MeasuresIn(lines[1..])
  }

  /** The register after these lines, if there were not too many. */
  function OneRegister(num: Option<nat>, rs: seq<nat>): Option<nat> { if num.Some? || rs == [] then num
    else Some(rs[0]) }

  ghost predicate Collects(st: Progress, lines: seq<string>, target: string, st1: Progress) {
    && (forall i :: 0 <= i < |lines| ==> LineAccepted(lines[i], target))
    && Adds(st, RegistersIn(lines), GatesIn(lines, target), MeasuresIn(lines), st1)
  }

  /** st1 is st with these items added. */
  ghost predicate Adds(st: Progress, rs: seq<nat>, gs: seq<GateOp>, qs: seq<int>, st1: Progress) {
    && |rs| <= (if st.num.Some? then 0 else 1)
    && st1 == Progress(OneRegister(st.num, rs), st.gates + gs, st.measurements + qs)
  }

  lemma AddsSplit(st: Progress, mid: Progress, st1: Progress, r: seq<nat>, rs: seq<nat>, g: seq<GateOp>,
    gs: seq<GateOp>,
    q: seq<int>, qs: seq<int>)
    requires Adds(st, r, g, q, mid) && |r| <= 1
    ensures Adds(mid, rs, gs, qs, st1) <==> Adds(st, r + rs, g + gs, q + qs, st1)
  {
    Regroup(st.gates, g, gs);
    Regroup(st.measurements, q, qs);
    assert r == [] ==> r + rs == rs;
  }

  lemma LineStep(st: Progress, line: string, target: string)
    ensures ParseLine(st, line, target).Ok? <==>
      LineAccepted(line, target) && !(Classify(Strip(line)).Register? && st.num.Some?)
    ensures var item := Classify(Strip(line));
      ParseLine(st, line, target).Ok? ==>
        ParseLine(st, line, target).value == Progress(
          if item.Register? then Some(item.n) else st.num,
          st.gates + (if LineGate(line, target).Some? then [LineGate(line, target).value] else []),
          st.measurements + (if item.Measure? then [item.q] else []))
  {
    hide Classify, Strip, ParseParams, ReadGate;
    assert st.gates + [] == st.gates && st.measurements + [] == st.measurements;
  }

  lemma {:induction false} CollectsExact(st: Progress, lines: seq<string>, target: string, st1: Progress)
    ensures ParseLines(st, lines, target) == Ok(st1) <==> Collects(st, lines, target, st1)
    decreases |lines|
  {
    if lines == [] {
      assert st.gates + [] == st.gates && st.measurements + [] == st.measurements;
    } else {
      LineStep(st, lines[0], target);
      hide ParseLine, LineGate, LineAccepted, Classify, Strip;
      var next := ParseLine(st, lines[0], target);
      if next.Ok? {
        CollectsExact(next.value, lines[1..], target, st1);
        CollectsSplit(st, lines, target, st1, next.value);
      }
    }
  }

  lemma CollectsSplit(st: Progress, lines: seq<string>, target: string, st1: Progress, mid: Progress)
    requires lines != [] && LineAccepted(lines[0], target)
    requires var (line, item) := (lines[0], Classify(Strip(lines[0])));
      && !(item.Register? && st.num.Some?)
      && mid == Progress(if item.Register? then Some(item.n) else st.num,
                         st.gates + (if LineGate(line, target).Some? then [LineGate(line, target).value] else []),
                         st.measurements + (if item.Measure? then [item.q] else []))
    ensures Collects(mid, lines[1..], target, st1) <==> Collects(st, lines, target, st1)
  {
    var (line, item, rest) := (lines[0], Classify(Strip(lines[0])), lines[1..]);
    var g := if LineGate(line, target).Some? then [LineGate(line, target).value] else [];
    var q: seq<int> := if item.Measure? then [item.q] else [];
    var r: seq<nat> := if item.Register? then [item.n] else [];
    hide LineGate, LineAccepted, Classify, Strip;
    assert GatesIn(lines, target) == g + GatesIn(rest, target);
    assert MeasuresIn(lines) == q + MeasuresIn(rest) && RegistersIn(lines) == r + RegistersIn(rest);
    AllAccepted(lines, target);
    hide GatesIn, MeasuresIn, RegistersIn;
    AddsSplit(st, mid, st1, r, RegistersIn(rest), g, GatesIn(rest, target), q, MeasuresIn(rest));
    hide Adds;
  }

  lemma Regroup<T>(a: seq<T>, b: seq<T>, c: seq<T>)
    ensures a + b + c == a + (b + c)
  {
  }

  lemma AllAccepted(lines: seq<string>, target: string)
    requires lines != []
    ensures (forall i :: 0 <= i < |lines| ==> LineAccepted(lines[i], target)) <==>
      LineAccepted(lines[0], target) && forall i :: 0 <= i < |lines[1..]| ==> LineAccepted(lines[1..][i], target)
  {
    hide LineAccepted;
    assert forall i :: 1 <= i < |lines| ==> lines[i] == lines[1..][i - 1];
  }

  /** A text is accepted if and only if each of its lines is, exactly one of them declares the register, and the
      circuit made of the gate lines and the measurement lines, in order, is valid; that circuit is the result. */
  lemma ParseExact(text: string, target: string, metadata: Metadata, ir: NativeGateIR)
    ensures var lines := SplitLines(Strip(text));
      Parse(text, target, metadata) == Ok(ir) <==>
        && (forall i :: 0 <= i < |lines| ==> LineAccepted(lines[i], target))
        && |RegistersIn(lines)| == 1
        && ir == NativeGateIR(target, RegistersIn(lines)[0], GatesIn(lines, target), MeasuresIn(lines), metadata)
        && ValidIR(ir)
  {
    var lines := SplitLines(Strip(text));
    var r := ParseLines(START, lines, target);
    var st1 := Progress(OneRegister(None, RegistersIn(lines)), GatesIn(lines, target), MeasuresIn(lines));
    CollectsExact(START, lines, target, st1);
    if r.Ok? { CollectsExact(START, lines, target, r.value); }
    assert [] + GatesIn(lines, target) == GatesIn(lines, target) && [] + MeasuresIn(lines) == MeasuresIn(lines);
    hide ParseLines, LineAccepted, GatesIn, RegistersIn, MeasuresIn, SplitLines, Strip, ValidIR;
  }

  /** On `cnot` an `ry` with any other angle is refused, and with it the whole text. */
  lemma OtherAnglesRefused(text: string, metadata: Metadata, i: nat, ps: string, d: Param, qs: seq<nat>)
    requires var lines := SplitLines(Strip(text)); i < |lines| && Classify(Strip(lines[i])) == Gate("ry", ps, qs)
    requires ParseParams(ps) == Some([d]) && !IsMinusHalfPi(ToReal(d))
    ensures Parse(text, "cnot", metadata).Err?
  {
    var lines := SplitLines(Strip(text));
    var r := ReadGate("ry", [d], qs, "cnot");
    if r.Some? { YieldsExact("ry", [d], qs, "cnot", r.value); }
    assert !LineAccepted(lines[i], "cnot");
    if Parse(text, "cnot", metadata).Ok? { ParseExact(text, "cnot", metadata, Parse(text, "cnot", metadata).value); }
    hide Parse, ReadGate, Classify, Strip, SplitLines, ParseParams, IsMinusHalfPi, ToReal;
  }

  // ---- layout ----

  /** Blanks around a line do not matter. */
  lemma {:induction false} StripBlanks(a: string, s: string, b: string)
    requires AllIn(a, Space) && AllIn(b, Space) && Trim(s)
    ensures Strip(a + (s + b)) == s
    decreases |b|
  {
    SkipIs(a, s + b, Space);
    hide Skip;
    StripEndBlanks(s, b);
  }

  lemma {:induction false} StripEndBlanks(s: string, b: string)
    requires AllIn(b, Space) && Trim(s)
    ensures StripEnd(s + b) == s
    decreases |b|
  {
    if b == "" {
      assert s + b == s;
    } else {
      assert (s + b)[..|s + b| - 1] == s + b[..|b| - 1];
      StripEndBlanks(s, b[..|b| - 1]);
    }
  }

  /** Where a text is cut into lines: at each of the line breaks, `\r\n` counting as one. */
  lemma LineBreaks(a: string, c: char, b: string)
    requires AllIn(a, NotBreak) && c as int in {10, 11, 12, 13, 28, 29, 30}
    ensures !(c == '\r' && b != "" && b[0] == '\n') ==> SplitLines(a + ([c] + b)) == [a] + SplitLines(b)
    ensures SplitLines(a + ("\r\n" + b)) == [a] + SplitLines(b)
  {
    SpanIs(a, [c] + b, NotBreak);
    SpanIs(a, "\r\n" + b, NotBreak);
    hide Span;
    var s := a + ([c] + b);
    assert s[|a|] == c && s[..|a|] == a && s[|a| + 1..] == b;
    assert |s| > |a| + 1 ==> s[|a| + 1] == b[0];
    var t := a + ("\r\n" + b);
    assert t[|a|] == '\r' && t[|a| + 1] == '\n' && t[..|a|] == a && t[|a| + 2..] == b;
  }
}
