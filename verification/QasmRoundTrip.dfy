/** Printing and parsing circuits undo each other, up to 15-digit rounding of the
    parameters and the duration of `id`, which the text cannot carry. */
module QasmRoundTrip {
  import opened Options
  import opened Text
  import opened Decimals
  import opened Tolerance
  import opened CircuitIR
  import opened Qasm

  // ---- characters of printed numbers ----

  predicate IsNumeric(c: char) { IsDigit(c) || c == '.' || c == '-' || c == '+' || c == 'e' }

  ghost predicate Numeric(s: string) { forall i :: 0 <= i < |s| ==> IsNumeric(s[i]) }

  lemma MagnitudeChars(ds: string, exp: int)
    requires ds != "" && AllIn(ds, Digit)
    ensures Numeric(Magnitude(ds, exp))
  {
    var x := |ds| - 1 + exp;
    assert AllIn(Padded(if x < 0 then -x else x), Digit) by { PaddedValue(if x < 0 then -x else x); }
    hide Padded;
  }

  lemma FormatChars(d: Param)
    ensures Numeric(Format(d)) && Format(d) != ""
  {
    var r := Round15(d);
    if r.mant != 0 { MagnitudeChars(Digits(r.mant), r.exp); }
    RenderTrim(r);
    hide Magnitude, Digits, Round15;
  }

  /** A printed number alone in the parentheses is read back, rounded. */
  lemma ParamReads(d: Param)
    ensures ParseParams(Format(d)) == Some([Round15(d)])
  {
    var s := Format(d);
    FormatChars(d);
    SpanIs(s, "", NotComma);
    assert s + "" == s;
    ParseFormat(d);
    RenderTrim(Round15(d));
    StripIs(s);
    hide Format, ParseFloat, Strip, Span, Round15, Digits, Render;
    assert SplitComma(s) == [s];
    OnePiece(s, Round15(d));
  }

  lemma OnePiece(s: string, d: Param)
    requires ParseFloat(s) == Some(d) && Strip(s) == s
    ensures ParseAll([s]) == Some([d])
  {
    hide ParseFloat, Strip;
    assert [s][1..] == [] && [s][0] == s;
    assert ParseAll([]) == Some([]);
    assert [d] + [] == [d];
  }

  // ---- qubit references ----

  ghost predicate NonNeg(qs: seq<int>) { forall i :: 0 <= i < |qs| ==> qs[i] >= 0 }

  lemma RefReads(q: nat, rest: string)
    ensures ScanRef(RefText(q) + rest) == Some((q, rest))
  {
    var ds := Digits(q);
    var s2 := ds + ("]" + rest);
    assert RefText(q) + rest == "q" + ("[" + s2);
    Some1Is("q", "[" + s2, Word);
    LitIs("[", s2);
    Some1Is(ds, "]" + rest, Digit);
    LitIs("]", rest);
    ValueDigits(q);
    hide Some1, Lit, Digits, Value, RefText;
  }

  /** The text after the first reference. */
  function Others(qs: seq<int>): string
    requires qs != []
  {
    if |qs| == 1 then "" else ", " + RefsText(qs[1..])
  }

  lemma RefsSplit(qs: seq<int>)
    requires qs != []
    ensures RefsText(qs) == RefText(qs[0]) + Others(qs) && RefsText(qs) != "" && RefsText(qs)[0] == 'q'
  {
    hide IntText;
    if |qs| == 1 { assert RefText(qs[0]) + "" == RefText(qs[0]); }
    else { assert RefText(qs[0]) + ", " + RefsText(qs[1..]) == RefText(qs[0]) + (", " + RefsText(qs[1..])); }
  }

  /** One more reference after a comma. */
  lemma MoreStep(q: nat, after: string)
    ensures var s := ", " + (RefText(q) + after);
      var s1 := Lit(Skip(s, Space), ",");
      s1.Some? && ScanRef(Skip(s1.value, Space)) == Some((q, after))
  {
    var s4 := RefText(q) + after;
    assert !IsSpace(s4[0]);
    RefReads(q, after);
    hide RefText, ScanRef, Lit, Skip;
    assert ", " + s4 == "," + ([' '] + s4);
    SkipNone("," + ([' '] + s4), Space);
    LitIs(",", [' '] + s4);
    SkipOne(' ', s4, Space);
  }

  lemma ScanMoreStep(s: string, q: nat, after: string)
    requires var s1 := Lit(Skip(s, Space), ","); s1.Some? && ScanRef(Skip(s1.value, Space)) == Some((q, after))
    ensures var (qs, rest) := ScanMore(after); ScanMore(s) == ([q] + qs, rest)
  {
    hide ScanRef;
  }

  lemma ScanMoreEnd()
    ensures ScanMore(";") == ([], ";")
  {
    SkipNone(";", Space);
  }

  lemma {:induction false} MoreReads(qs: seq<int>)
    requires qs != [] && NonNeg(qs)
    ensures ScanMore(Others(qs) + ";") == (qs[1..], ";")
    decreases |qs|
  {
    hide RefText, RefsText, ScanRef, Lit, Skip, ScanMore;
    if |qs| == 1 {
      ScanMoreEnd();
      assert Others(qs) + ";" == ";";
    } else {
      var tail := qs[1..];
      var after := Others(tail) + ";";
      RefsSplit(tail);
      assert Others(qs) + ";" == ", " + (RefText(tail[0]) + after);
      hide Others;
      MoreStep(tail[0], after);
      MoreReads(tail);
      ScanMoreStep(Others(qs) + ";", tail[0], after);
      assert qs[1..] == [tail[0]] + tail[1..];
    }
  }

  lemma RefsRead(qs: seq<int>)
    requires qs != [] && NonNeg(qs)
    ensures ScanRefs(RefsText(qs) + ";") == Some((qs, ";")) && RefsText(qs) != "" && RefsText(qs)[0] == 'q'
  {
    hide RefText, RefsText, ScanRef, ScanMore, Others;
    RefsSplit(qs);
    assert RefsText(qs) + ";" == RefText(qs[0]) + (Others(qs) + ";");
    RefReads(qs[0], Others(qs) + ";");
    MoreReads(qs);
    assert [qs[0]] + qs[1..] == qs;
  }

  // ---- gate lines ----

  /** What follows the name and the parameters. */
  lemma TailReads(qs: seq<int>)
    requires qs != [] && NonNeg(qs)
    ensures var s2 := " " + (RefsText(qs) + ";");
      Some1(s2, Space) == Some((" ", RefsText(qs) + ";"))
  {
    RefsRead(qs);
    SkipOne(' ', RefsText(qs) + ";", Space);
  }

  lemma ScanGateParts(s: string, name: string, s1: string, ps: string, s2: string, qs: seq<int>)
    requires Some1(s, Word) == Some((name, s1)) && ScanParams(s1) == (ps, s2)
    requires s2 == " " + (RefsText(qs) + ";") && qs != [] && NonNeg(qs)
    ensures ScanGate(s) == Some((name, ps, qs))
  {
    TailReads(qs);
    RefsRead(qs);
    SkipNone(";", Space);
    LitIs(";", "");
    assert ";" + "" == ";";
    hide Some1, ScanParams, ScanRefs, RefsText, Skip, Lit;
  }

  lemma PlainReads(name: string, qs: seq<int>)
    requires name != "" && AllIn(name, Word) && qs != [] && NonNeg(qs)
    ensures ScanGate(Plain(name, qs)) == Some((name, "", qs))
  {
    hide RefsText, ScanGate, Some1;
    var s1 := " " + (RefsText(qs) + ";");
    assert Plain(name, qs) == name + s1;
    Some1Is(name, s1, Word);
    assert ScanParams(s1) == ("", s1);
    hide ScanParams, AllIn, Plain;
    ScanGateParts(name + s1, name, s1, "", s1, qs);
  }

  lemma ParamsScan(ps: string, s2: string)
    requires AllIn(ps, NotClose)
    ensures ScanParams("(" + (ps + (")" + s2))) == (ps, s2)
  {
    var s1 := ps + (")" + s2);
    LitIs("(", s1);
    SpanIs(ps, ")" + s2, NotClose);
    LitIs(")", s2);
    hide Lit, Span;
    assert s1[|ps|..] == ")" + s2 && s1[..|ps|] == ps;
  }

  lemma WithParamsReads(name: string, ps: string, qs: seq<int>)
    requires name != "" && AllIn(name, Word) && AllIn(ps, NotClose) && qs != [] && NonNeg(qs)
    ensures ScanGate(WithParams(name, ps, qs)) == Some((name, ps, qs))
  {
    hide RefsText, ScanGate, ScanParams, Some1;
    var s2 := " " + (RefsText(qs) + ";");
    var s1 := "(" + (ps + (")" + s2));
    WithParamsText(name, ps, qs);
    Some1Is(name, s1, Word);
    ParamsScan(ps, s2);
    hide AllIn, WithParams;
    ScanGateParts(name + s1, name, s1, ps, s2, qs);
  }

  lemma WithParamsText(name: string, ps: string, qs: seq<int>)
    ensures WithParams(name, ps, qs) == name + ("(" + (ps + (")" + (" " + (RefsText(qs) + ";")))))
  {
    hide RefsText;
    var r := RefsText(qs);
    assert name + "(" + ps + ") " + r + ";" == name + ("(" + (ps + (")" + (" " + (r + ";")))));
  }

  /** The names the printer uses. */
  ghost predicate GateName(name: string) {
    name == "rx" || name == "ry" || name == "rz" || name == "cz" || name == "id" || name == "sx" || name == "cx"
  }

  /** A line that starts with a gate name and then a blank or a parenthesis passes
      all the tests that come before the gate test. */
  lemma NotEarlier(name: string, s1: string)
    requires GateName(name) && s1 != "" && (s1[0] == ' ' || s1[0] == '(')
    ensures var s := name + s1;
      s != "" && !("//" <= s) && ScanHeader(s).None? && ScanInclude(s).None? && ScanDecl(s, "bit[").None?
      && ScanDecl(s, "qubit[").None? && ScanMeasure(s).None?
  {
    var s := name + s1;
    assert s[0] == name[0] && s[1] == name[1];
    LitNot(s, "OPENQASM", 0);
    LitNot(s, "bit[", 0);
    LitNot(s, "qubit[", 0);
    LitNot(s, "include", 1);
    Some1Is(name, s1, Word);
    LitNot(s1, "[", 0);
    hide Some1, Lit;
  }

  // ---- every printed line is read as its own kind ----

  /** Survives stripping and line splitting. */
  ghost predicate LineOk(s: string) { Trim(s) && AllIn(s, NotBreak) }

  lemma AllInConcat(a: string, b: string, k: Class)
    requires AllIn(a, k) && AllIn(b, k)
    ensures AllIn(a + b, k)
  {
  }

  lemma {:induction false} RefsChars(qs: seq<int>)
    requires NonNeg(qs)
    ensures AllIn(RefsText(qs), NotBreak)
  {
    if qs != [] {
      assert AllIn(RefText(qs[0]), NotBreak);
      RefsChars(qs[1..]);
      hide RefText;
    }
  }

  lemma GateLineOk(name: string, mid: string, qs: seq<int>)
    requires GateName(name) && AllIn(mid, NotBreak) && NonNeg(qs)
    ensures LineOk(name + (mid + (RefsText(qs) + ";")))
  {
    RefsChars(qs);
    hide RefsText;
    AllInConcat(RefsText(qs), ";", NotBreak);
    AllInConcat(mid, RefsText(qs) + ";", NotBreak);
    AllInConcat(name, mid + (RefsText(qs) + ";"), NotBreak);
  }

  lemma ClassifyGate(name: string, s1: string, ps: string, qs: seq<nat>)
    requires GateName(name) && s1 != "" && (s1[0] == ' ' || s1[0] == '(') && ScanGate(name + s1) == Some((name, ps, qs))
    ensures Classify(name + s1) == Gate(name, ps, qs)
  {
    NotEarlier(name, s1);
    hide ScanGate, ScanHeader, ScanInclude, ScanDecl, ScanMeasure, GateName;
  }

  lemma PlainLine(name: string, qs: seq<int>)
    requires GateName(name) && qs != [] && NonNeg(qs)
    ensures LineOk(Plain(name, qs)) && Classify(Plain(name, qs)) == Gate(name, "", qs)
  {
    hide RefsText, ScanGate, Classify, LineOk;
    assert AllIn(name, Word);
    PlainReads(name, qs);
    GateLineOk(name, " ", qs);
    assert Plain(name, qs) == name + (" " + (RefsText(qs) + ";"));
    hide AllIn, Plain, GateName;
    ClassifyGate(name, " " + (RefsText(qs) + ";"), "", qs);
  }

  lemma WithParamsLine(name: string, ps: string, qs: seq<int>)
    requires GateName(name) && Numeric(ps) && qs != [] && NonNeg(qs)
    ensures LineOk(WithParams(name, ps, qs)) && Classify(WithParams(name, ps, qs)) == Gate(name, ps, qs)
  {
    hide RefsText, ScanGate, Classify, LineOk;
    assert AllIn(name, Word);
    WithParamsReads(name, ps, qs);
    WithParamsText(name, ps, qs);
    var mid := "(" + (ps + ") ");
    GateLineOk(name, mid, qs);
    hide AllIn, WithParams, GateName, Numeric;
    var s1 := "(" + (ps + (")" + (" " + (RefsText(qs) + ";"))));
    assert mid + (RefsText(qs) + ";") == s1;
    ClassifyGate(name, s1, ps, qs);
  }

  /** The last part of a measurement, after the equals sign. */
  lemma MeasureTail(q: nat)
    ensures var s2 := " " + ("measure" + (" " + (RefText(q) + ";")));
      Lit(Skip(s2, Space), "measure") == Some(" " + (RefText(q) + ";"))
      && Some1(" " + (RefText(q) + ";"), Space) == Some((" ", RefText(q) + ";"))
      && ScanRef(RefText(q) + ";") == Some((q, ";"))
      && Lit(Skip(";", Space), ";") == Some("")
  {
    var s4 := RefText(q) + ";";
    assert !IsSpace(s4[0]);
    RefReads(q, ";");
    hide RefText, ScanRef, Lit, Skip, Some1;
    SkipOne(' ', "measure" + (" " + s4), Space);
    LitIs("measure", " " + s4);
    SkipOne(' ', s4, Space);
    SkipNone(";", Space);
    LitIs(";", "");
    assert ";" + "" == ";";
  }

  lemma MeasureHead(i: nat, s2: string)
    ensures var s1 := " " + ("=" + s2);
      ScanRef("c" + ("[" + (Digits(i) + ("]" + s1)))) == Some((i, s1)) && Lit(Skip(s1, Space), "=") == Some(s2)
  {
    hide Lit, Skip, Some1, Value;
    var ds := Digits(i);
    var s1 := " " + ("=" + s2);
    Some1Is("c", "[" + (ds + ("]" + s1)), Word);
    LitIs("[", ds + ("]" + s1));
    Some1Is(ds, "]" + s1, Digit);
    LitIs("]", s1);
    ValueDigits(i);
    hide Digits;
    SkipOne(' ', "=" + s2, Space);
    LitIs("=", s2);
  }

  lemma MeasureSplit(i: nat, q: nat)
    ensures MeasureText(i, q)
      == "c" + ("[" + (Digits(i) + ("]" + (" " + ("=" + (" " + ("measure" + (" " + (RefText(q) + ";")))))))))
  {
    hide Digits;
    var (a, b) := (Digits(i), IntText(q));
    hide IntText;
    assert "c[" + a + "] = measure q[" + b + "];"
      == "c" + ("[" + (a + ("]" + (" " + ("=" + (" " + ("measure" + (" " + (("q[" + b + "]") + ";")))))))));
  }

  lemma MeasureReads(i: nat, q: nat)
    ensures ScanMeasure(MeasureText(i, q)) == Some(q)
  {
    var s2 := " " + ("measure" + (" " + (RefText(q) + ";")));
    MeasureHead(i, s2);
    MeasureTail(q);
    MeasureSplit(i, q);
    hide Lit, Skip, Some1, RefText, ScanRef, Digits, MeasureText;
  }

  lemma MeasureChars(i: nat, q: nat)
    ensures LineOk(MeasureText(i, q)) && MeasureText(i, q)[0] == 'c'
  {
    assert AllIn(Digits(i), NotBreak) && AllIn(Digits(q), NotBreak);
    hide Digits;
  }

  lemma NotKeyword(s: string)
    requires s != "" && s[0] != 'O' && s[0] != 'i' && s[0] != 'b'
    ensures ScanHeader(s).None? && ScanInclude(s).None? && ScanDecl(s, "bit[").None?
  {
    LitNot(s, "OPENQASM", 0);
    LitNot(s, "bit[", 0);
    LitNot(s, "include", 0);
    hide Lit;
  }

  lemma MeasureLine(i: nat, q: nat)
    ensures LineOk(MeasureText(i, q)) && Classify(MeasureText(i, q)) == Measure(q)
  {
    var s := MeasureText(i, q);
    MeasureReads(i, q);
    MeasureChars(i, q);
    NotKeyword(s);
    LitNot(s, "qubit[", 0);
    hide Lit, ScanMeasure, MeasureText, ScanGate, ScanHeader, ScanInclude, LineOk;
    assert ScanDecl(s, "qubit[").None?;
    hide ScanDecl;
  }

  lemma DeclReads(kind: string, n: nat, name: string)
    requires |name| == 1 && AllIn(name, Word)
    ensures ScanDecl(kind + (Digits(n) + ("] " + (name + ";"))), kind) == Some(n)
  {
    hide Lit, Skip, Some1, Value;
    var ds := Digits(n);
    var s3 := " " + (name + ";");
    assert "] " + (name + ";") == "]" + s3;
    LitIs(kind, ds + ("]" + s3));
    Some1Is(ds, "]" + s3, Digit);
    LitIs("]", s3);
    SkipOne(' ', name + ";", Space);
    Some1Is(name, ";", Word);
    SkipNone(";", Space);
    LitIs(";", "");
    assert ";" + "" == ";";
    ValueDigits(n);
    hide Digits;
  }

  lemma DeclChars(kind: string, n: nat, name: string)
    requires kind != "" && AllIn(kind, NotBreak) && !IsSpace(kind[0]) && AllIn(name, Word)
    ensures LineOk(kind + (Digits(n) + ("] " + (name + ";"))))
  {
    assert AllIn(Digits(n), NotBreak);
    hide Digits;
  }

  lemma QubitLineIs(n: nat)
    ensures LineOk(QubitLine(n)) && Classify(QubitLine(n)) == Register(n)
  {
    hide ScanDecl, LineOk, Digits;
    var s := QubitLine(n);
    DeclReads("qubit[", n, "q");
    DeclChars("qubit[", n, "q");
    assert s == "qubit[" + (Digits(n) + ("] " + ("q" + ";")));
    assert s[0] == 'q';
    NotKeyword(s);
    hide QubitLine, ScanMeasure, ScanGate, ScanHeader, ScanInclude, Digits;
  }

  lemma BitLineIs(n: nat)
    ensures LineOk(BitLine(n)) && Classify(BitLine(n)) == Ignored && ScanDecl(BitLine(n), "bit[") == Some(n)
  {
    hide ScanDecl, LineOk, Digits;
    DeclReads("bit[", n, "c");
    DeclChars("bit[", n, "c");
    assert BitLine(n) == "bit[" + (Digits(n) + ("] " + ("c" + ";")));
    hide BitLine, ScanMeasure, ScanGate, ScanHeader, ScanInclude;
  }

  lemma HeaderIs()
    ensures LineOk(HEADER) && Classify(HEADER) == Ignored
  {
    hide Lit, Skip, Some1, Classify;
    assert HEADER == "OPENQASM" + (" " + ("3.0" + ";"));
    LitIs("OPENQASM", " " + ("3.0" + ";"));
    SkipOne(' ', "3.0" + ";", Space);
    Some1Is("3.0", ";", Version);
    SkipNone(";", Space);
    LitIs(";", "");
    assert ";" + "" == ";";
    assert ScanHeader(HEADER).Some?;
    HeaderIgnored(HEADER);
  }

  lemma HeaderIgnored(s: string)
    requires ScanHeader(s).Some? || ScanInclude(s).Some?
    ensures Classify(s) == Ignored
  {
    hide ScanMeasure, ScanGate, ScanDecl, ScanHeader, ScanInclude;
  }

  lemma IncludeIs()
    ensures LineOk(INCLUDE) && Classify(INCLUDE) == Ignored
  {
    hide Classify, ScanInclude;
    var file := "stdgates.inc";
    assert INCLUDE == "include" + (" " + ("\"" + (file + ("\"" + ";"))));
    IncludeReads(file);
    HeaderIgnored(INCLUDE);
  }

  lemma IncludeReads(file: string)
    requires file != "" && AllIn(file, NotQuote)
    ensures ScanInclude("include" + (" " + ("\"" + (file + ("\"" + ";"))))).Some?
  {
    hide Lit, Skip, Some1;
    LitIs("include", " " + ("\"" + (file + ("\"" + ";"))));
    SkipOne(' ', "\"" + (file + ("\"" + ";")), Space);
    LitIs("\"", file + ("\"" + ";"));
    Some1Is(file, "\"" + ";", NotQuote);
    LitIs("\"", ";");
    SkipNone(";", Space);
    LitIs(";", "");
    assert ";" + "" == ";";
  }

  // ---- one gate ----

  /** What a gate becomes on the way through the text. */
  function NormalOp(op: GateOp): GateOp {
    if op.gate == ID then op.(params := [ZERO_PARAM]) else op.(params := RoundAll(op.params))
  }

  function RoundAll(ps: seq<Param>): seq<Param> { seq(|ps|, i requires 0 <= i < |ps| => Round15(ps[i])) }

  /** The gates the printer has a mapping for, among the legal ones. */
  predicate Printable(g: NativeGate, target: string) {
    target == "cz" || (target == "cnot" && g != RX && g != RY && g != RZ)
  }

  /** A gate of a valid circuit for this target. */
  ghost predicate OpOk(op: GateOp, target: string) {
    && ShapeOk(op) && NonNeg(op.qubits)
    && LegalGates(target).Some? && op.gate in LegalGates(target).value
  }

  lemma PrintableGates(op: GateOp, target: string)
    requires OpOk(op, target)
    ensures PrintGate(op, target).Some? <==> Printable(op.gate, target)
  {
    hide Format, ParamsText, RefsText, WithParams, Plain;
  }

  /** The name, parameter text and parsed parameters of a printed gate. */
  ghost predicate LineOf(line: string, name: string, ps: seq<Param>, qs: seq<int>) {
    LineOk(line) && NonNeg(qs) && exists text :: Classify(line) == Gate(name, text, qs) && ParseParams(text) == Some(ps)
  }

  lemma PlainLineOf(name: string, qs: seq<int>)
    requires GateName(name) && qs != [] && NonNeg(qs)
    ensures LineOf(Plain(name, qs), name, [], qs)
  {
    hide Classify, LineOk, Plain, GateName;
    PlainLine(name, qs);
    assert ParseParams("") == Some([]);
  }

  lemma ParamLineOf(name: string, d: Param, qs: seq<int>)
    requires GateName(name) && qs != [] && NonNeg(qs)
    ensures LineOf(WithParams(name, Format(d), qs), name, [Round15(d)], qs)
  {
    hide Classify, LineOk, WithParams, GateName, Format, ParseParams, Round15;
    FormatChars(d);
    ParamReads(d);
    WithParamsLine(name, Format(d), qs);
  }

  lemma CzLine(op: GateOp, line: string)
    requires OpOk(op, "cz") && PrintGate(op, "cz") == Some(line)
    ensures exists name, ps :: LineOf(line, name, ps, op.qubits) && ReadCz(name, ps, op.qubits) == Some(NormalOp(op))
  {
    hide Format, WithParams, Plain, LineOf, Round15;
    assert |op.params| == 1 ==> RoundAll(op.params) == [Round15(op.params[0])];
    assert op.gate == CZ ==> RoundAll(op.params) == op.params;
    var name := match op.gate case RX => "rx" case RY => "ry" case RZ => "rz" case CZ => "cz" case _ => "id";
    if op.gate == CZ || op.gate == ID {
      PlainLineOf(name, op.qubits);
    } else {
      ParamLineOf(name, op.params[0], op.qubits);
    }
  }

  lemma CnotLine(op: GateOp, line: string)
    requires OpOk(op, "cnot") && PrintGate(op, "cnot") == Some(line)
    ensures exists name, ps :: LineOf(line, name, ps, op.qubits) && ReadCnot(name, ps, op.qubits) == Some(NormalOp(op))
  {
    hide Format, WithParams, Plain, LineOf, Round15, IsClose, ToReal;
    assert |op.params| == 1 ==> RoundAll(op.params) == [Round15(op.params[0])];
    assert op.params == [] ==> RoundAll(op.params) == op.params;
    var name := match op.gate
      case X90 => "sx" case Y_MINUS_90 => "ry" case VIRTUAL_Z => "rz" case CNOT => "cx" case _ => "id";
    if op.gate == Y_MINUS_90 {
      RoundClose(MINUS_HALF_PI);
      ParamLineOf(name, MINUS_HALF_PI, op.qubits);
    } else if op.gate == VIRTUAL_Z {
      ParamLineOf(name, op.params[0], op.qubits);
    } else {
      PlainLineOf(name, op.qubits);
    }
  }

  /** A printed gate is read back as its normal form. */
  lemma GateLine(op: GateOp, target: string, line: string, st: Progress)
    requires OpOk(op, target) && PrintGate(op, target) == Some(line)
    ensures LineOk(line) && ParseLine(st, line, target) == Ok(st.(gates := st.gates + [NormalOp(op)]))
  {
    if target == "cz" { CzLine(op, line); } else { CnotLine(op, line); }
    hide PrintGate, ReadCz, ReadCnot, ParseParams, Classify, NormalOp;
    assert LineOk(line) by { hide LineOk; }
    StripIs(line);
    hide Strip, LineOk;
    assert ShapeOk(NormalOp(op)) by { NormalShape(op); }
  }

  lemma NormalShape(op: GateOp)
    requires ShapeOk(op)
    ensures ShapeOk(NormalOp(op)) && NormalOp(op).gate == op.gate && NormalOp(op).qubits == op.qubits
  {
  }

  // ---- whole programs ----

  function NormalOps(ops: seq<GateOp>): seq<GateOp> { seq(|ops|, i requires 0 <= i < |ops| => NormalOp(ops[i])) }

  /** What a circuit becomes on the way through the text. */
  function Normal(ir: NativeGateIR): NativeGateIR { ir.(gates := NormalOps(ir.gates)) }

  ghost predicate OpsOk(ops: seq<GateOp>, target: string) { forall i :: 0 <= i < |ops| ==> OpOk(ops[i], target) }

  ghost predicate LinesOk(lines: seq<string>) { forall i :: 0 <= i < |lines| ==> LineOk(lines[i]) }

  lemma {:induction false} ParseConcat(st: Progress, a: seq<string>, b: seq<string>, target: string)
    ensures ParseLines(st, a + b, target) ==
      (var mid := ParseLines(st, a, target); if mid.Err? then Err(mid.error) else ParseLines(mid.value, b, target))
    decreases |a|
  {
    hide ParseLine;
    if a == [] {
      assert a + b == b;
    } else {
      assert (a + b)[0] == a[0] && (a + b)[1..] == a[1..] + b;
      var next := ParseLine(st, a[0], target);
      if next.Ok? { ParseConcat(next.value, a[1..], b, target); }
    }
  }

  lemma {:induction false} GatesRead(st: Progress, ops: seq<GateOp>, target: string, lines: seq<string>)
    requires OpsOk(ops, target) && PrintGates(ops, target) == Some(lines)
    ensures LinesOk(lines) && ParseLines(st, lines, target) == Ok(st.(gates := st.gates + NormalOps(ops)))
    decreases |ops|
  {
    hide OpOk, NormalOp, LineOk, PrintGate, ParseLine;
    if ops == [] {
      assert st.gates + NormalOps(ops) == st.gates;
    } else {
      GateLine(ops[0], target, lines[0], st);
      var st1 := st.(gates := st.gates + [NormalOp(ops[0])]);
      GatesRead(st1, ops[1..], target, lines[1..]);
      assert st1.gates + NormalOps(ops[1..]) == st.gates + NormalOps(ops);
    }
  }

  lemma MeasureLineReads(st: Progress, i: nat, q: nat, target: string)
    ensures LineOk(MeasureText(i, q))
    ensures ParseLine(st, MeasureText(i, q), target) == Ok(st.(measurements := st.measurements + [q]))
  {
    MeasureLine(i, q);
    StripIs(MeasureText(i, q));
    hide MeasureText, Classify, Strip, LineOk;
  }

  lemma {:induction false} MeasuresRead(st: Progress, qs: seq<int>, from: nat, target: string)
    requires from <= |qs| && NonNeg(qs)
    ensures LinesOk(MeasureLines(qs)[from..])
    ensures ParseLines(st, MeasureLines(qs)[from..], target) == Ok(st.(measurements := st.measurements + qs[from..]))
    decreases |qs| - from
  {
    hide MeasureText, ParseLine, LineOk;
    var lines := MeasureLines(qs)[from..];
    if from == |qs| {
      assert st.measurements + qs[from..] == st.measurements;
    } else {
      MeasureLineReads(st, from, qs[from], target);
      var st1 := st.(measurements := st.measurements + [qs[from]]);
      MeasuresRead(st1, qs, from + 1, target);
      assert lines[0] == MeasureText(from, qs[from]) && lines[1..] == MeasureLines(qs)[from + 1..];
      assert st1.measurements + qs[from + 1..] == st.measurements + qs[from..];
    }
  }

  /** One line whose kind is known. */
  lemma ParseKnown(st: Progress, line: string, target: string)
    requires LineOk(line)
    ensures Classify(line) == Ignored ==> ParseLine(st, line, target) == Ok(st)
    ensures Classify(line).Register? && st.num.None? ==>
      ParseLine(st, line, target) == Ok(st.(num := Some(Classify(line).n)))
  {
    StripIs(line);
    hide Classify, Strip;
  }

  lemma ParseTwo(st: Progress, a: string, b: string, target: string)
    requires ParseLine(st, a, target).Ok?
    ensures ParseLines(st, [a], target) == ParseLine(st, a, target)
    ensures ParseLines(st, [a, b], target) == ParseLines(ParseLine(st, a, target).value, [b], target)
  {
    hide ParseLine;
    assert [a, b][1..] == [b] && [a][1..] == [];
  }

  lemma PreambleLinesOk(ir: NativeGateIR)
    requires ir.numQubits >= 0
    ensures LinesOk(Preamble(ir))
  {
    hide LineOk, Classify, QubitLine, BitLine;
    HeaderIs();
    IncludeIs();
    QubitLineIs(ir.numQubits);
    BitLineIs(|ir.measurements|);
  }

  lemma PreambleReads(ir: NativeGateIR, target: string)
    requires ir.numQubits >= 0
    ensures LinesOk(Preamble(ir)) && ParseLines(START, Preamble(ir), target) == Ok(START.(num := Some(ir.numQubits)))
  {
    hide LineOk, Classify, QubitLine, BitLine, ParseLine, ParseLines, Preamble, LinesOk;
    PreambleLinesOk(ir);
    var (n, m) := (ir.numQubits, |ir.measurements|);
    HeaderIs();
    IncludeIs();
    QubitLineIs(n);
    BitLineIs(m);
    var st := START.(num := Some(n));
    ParseKnown(START, HEADER, target);
    ParseKnown(START, INCLUDE, target);
    ParseKnown(START, QubitLine(n), target);
    ParseKnown(st, BitLine(m), target);
    PreambleSteps(ir, target, st);
  }

  lemma PreambleSteps(ir: NativeGateIR, target: string, st: Progress)
    requires ParseLine(START, HEADER, target) == Ok(START) && ParseLine(START, INCLUDE, target) == Ok(START)
    requires ParseLine(START, QubitLine(ir.numQubits), target) == Ok(st)
    requires ParseLine(st, BitLine(|ir.measurements|), target) == Ok(st)
    ensures ParseLines(START, Preamble(ir), target) == Ok(st)
  {
    hide QubitLine, BitLine, ParseLine;
    var (q, b) := (QubitLine(ir.numQubits), BitLine(|ir.measurements|));
    var last := if ir.measurements == [] then [] else [b];
    assert Preamble(ir) == [HEADER, INCLUDE] + ([q] + last);
    ParseTwo(START, HEADER, INCLUDE, target);
    ParseTwo(START, INCLUDE, q, target);
    ParseTwo(START, q, b, target);
    ParseTwo(st, b, b, target);
    ParseConcat(START, [HEADER, INCLUDE], [q] + last, target);
    ParseConcat(START, [q], last, target);
  }

  // ---- the main results ----

  lemma ValidParts(ir: NativeGateIR)
    requires ValidIR(ir)
    ensures OpsOk(ir.gates, ir.target) && NonNeg(ir.measurements) && ValidIR(Normal(ir))
  {
    forall i | 0 <= i < |ir.gates| ensures ShapeOk(NormalOp(ir.gates[i])) { NormalShape(ir.gates[i]); }
    hide NormalOp, ShapeOk, LegalGates;
  }

  lemma LinesOkConcat(a: seq<string>, b: seq<string>)
    requires LinesOk(a) && LinesOk(b)
    ensures LinesOk(a + b)
  {
    hide LineOk;
  }

  lemma ParseThree(st: Progress, a: seq<string>, b: seq<string>, c: seq<string>, target: string)
    requires ParseLines(START, a, target) == Ok(st) && ParseLines(st, b, target).Ok?
    ensures ParseLines(START, a + b + c, target) == ParseLines(ParseLines(st, b, target).value, c, target)
  {
    hide ParseLines;
    ParseConcat(START, a + b, c, target);
    ParseConcat(START, a, b, target);
  }

  /** The printed program, line by line. */
  lemma LinesRead(ir: NativeGateIR, lines: seq<string>)
    requires ValidIR(ir) && PrintLines(ir) == Some(lines)
    ensures lines != [] && LinesOk(lines)
    ensures ParseLines(START, lines, ir.target)
      == Ok(Progress(Some(ir.numQubits), NormalOps(ir.gates), ir.measurements))
  {
    ValidParts(ir);
    assert ir.numQubits >= 0 && Preamble(ir) != [];
    hide ValidIR, OpsOk, LinesOk, ParseLines, NormalOps, MeasureLines, PrintGates, Preamble, Normal;
    var st := START.(num := Some(ir.numQubits));
    var gates := PrintGates(ir.gates, ir.target).value;
    var ms := MeasureLines(ir.measurements);
    PreambleReads(ir, ir.target);
    GatesRead(st, ir.gates, ir.target, gates);
    assert [] + NormalOps(ir.gates) == NormalOps(ir.gates);
    MeasuresRead(st.(gates := NormalOps(ir.gates)), ir.measurements, 0, ir.target);
    assert ms[0..] == ms && [] + ir.measurements[0..] == ir.measurements;
    ParseThree(st, Preamble(ir), gates, ms, ir.target);
    LinesOkConcat(Preamble(ir), gates);
    LinesOkConcat(Preamble(ir) + gates, ms);
  }

  /** Round trip: whatever is printed from a valid circuit parses, with the same target and metadata, to
      the same circuit with its parameters rounded to 15 significant digits and the durations of `id` zero. */
  lemma RoundTrip(ir: NativeGateIR)
    requires ValidIR(ir) && Print(ir).Some?
    ensures Parse(Print(ir).value, ir.target, ir.metadata) == Ok(Normal(ir))
  {
    var lines := PrintLines(ir).value;
    LinesRead(ir, lines);
    ValidParts(ir);
    hide PrintLines, ParseLines, ValidIR, NormalOps, OpsOk;
    JoinEnds(lines);
    StripIs(Join(lines));
    SplitJoin(lines);
  }

  /** No parameter has more than 15 significant digits. */
  ghost predicate ShortParams(ir: NativeGateIR) {
    forall i, j :: 0 <= i < |ir.gates| && 0 <= j < |ir.gates[i].params| ==> Short(ir.gates[i].params[j])
  }

  /** Every `id` replaced by one of zero duration. */
  function ZeroDurations(ops: seq<GateOp>): seq<GateOp> {
    seq(|ops|, i requires 0 <= i < |ops| => if ops[i].gate == ID then ops[i].(params := [ZERO_PARAM]) else ops[i])
  }

  lemma ShortRoundTrip(ir: NativeGateIR)
    requires ValidIR(ir) && Print(ir).Some? && ShortParams(ir)
    ensures Parse(Print(ir).value, ir.target, ir.metadata) == Ok(ir.(gates := ZeroDurations(ir.gates)))
  {
    RoundTrip(ir);
    hide Parse, Print, ValidIR, Short, Round15;
    forall i | 0 <= i < |ir.gates| ensures NormalOp(ir.gates[i]) == ZeroDurations(ir.gates)[i] {
      var op := ir.gates[i];
      forall j | 0 <= j < |op.params| ensures Round15(op.params[j]) == op.params[j] { RoundShort(op.params[j]); }
      assert RoundAll(op.params) == op.params;
    }
    assert NormalOps(ir.gates) == ZeroDurations(ir.gates);
  }

  /** Nothing the text cannot carry. */
  ghost predicate Lossless(op: GateOp) {
    if op.gate == ID then op.params == [ZERO_PARAM] else forall j :: 0 <= j < |op.params| ==> Short(op.params[j])
  }

  lemma NormalIsSame(op: GateOp)
    ensures NormalOp(op) == op <==> Lossless(op)
  {
    hide Round15, Short;
    forall j | 0 <= j < |op.params| ensures Round15(op.params[j]) == op.params[j] <==> Short(op.params[j]) {
      RoundShort(op.params[j]);
    }
    if op.gate != ID {
      assert |RoundAll(op.params)| == |op.params|;
      assert forall j :: 0 <= j < |op.params| ==> RoundAll(op.params)[j] == Round15(op.params[j]);
      if forall j :: 0 <= j < |op.params| ==> Short(op.params[j]) { assert RoundAll(op.params) == op.params; }
    }
  }

  /** The round trip is exact if and only if no parameter is too long and no `id` has a duration. */
  lemma ExactRoundTrip(ir: NativeGateIR)
    requires ValidIR(ir) && Print(ir).Some?
    ensures Parse(Print(ir).value, ir.target, ir.metadata) == Ok(ir)
      <==> forall i :: 0 <= i < |ir.gates| ==> Lossless(ir.gates[i])
  {
    RoundTrip(ir);
    hide Parse, Print, ValidIR, Lossless, NormalOp;
    forall i | 0 <= i < |ir.gates| ensures NormalOp(ir.gates[i]) == ir.gates[i] <==> Lossless(ir.gates[i]) {
      NormalIsSame(ir.gates[i]);
    }
    assert forall i :: 0 <= i < |ir.gates| ==> NormalOps(ir.gates)[i] == NormalOp(ir.gates[i]);
    if forall i :: 0 <= i < |ir.gates| ==> Lossless(ir.gates[i]) { assert NormalOps(ir.gates) == ir.gates; }
  }

  /** Every line of a printed program is classified as the kind it was printed as. */
  ghost predicate OwnKinds(ir: NativeGateIR, lines: seq<string>) {
    var p := if ir.measurements == [] then 3 else 4;
    && |lines| == p + |ir.gates| + |ir.measurements|
    && PreambleOwn(ir, lines[..p])
    && GatesOwn(ir.gates, lines[p..p + |ir.gates|])
    && MeasuresOwn(ir.measurements, lines[p + |ir.gates|..])
  }

  ghost predicate PreambleOwn(ir: NativeGateIR, lines: seq<string>) {
    && |lines| == (if ir.measurements == [] then 3 else 4) && ir.numQubits >= 0
    && Classify(lines[0]) == Ignored && Classify(lines[1]) == Ignored && Classify(lines[2]) == Register(ir.numQubits)
    && (|lines| == 4 ==> Classify(lines[3]) == Ignored && ScanDecl(lines[3], "bit[") == Some(|ir.measurements|))
  }

  ghost predicate GatesOwn(ops: seq<GateOp>, lines: seq<string>) {
    |lines| == |ops| && forall i :: 0 <= i < |ops| ==>
      Classify(lines[i]).Gate? && Classify(lines[i]).qubits == ops[i].qubits
  }

  ghost predicate MeasuresOwn(qs: seq<int>, lines: seq<string>) {
    |lines| == |qs| && forall i :: 0 <= i < |qs| ==>
      && Classify(lines[i]).Measure? && Classify(lines[i]).q == qs[i]
      && ScanRef(lines[i]).Some? && ScanRef(lines[i]).value.0 == i
  }

  lemma GateKind(op: GateOp, target: string, line: string)
    requires OpOk(op, target) && PrintGate(op, target) == Some(line)
    ensures Classify(line).Gate? && Classify(line).qubits == op.qubits
  {
    if target == "cz" { CzLine(op, line); } else { CnotLine(op, line); }
    hide PrintGate, ReadCz, ReadCnot, ParseParams, Classify, NormalOp, LineOk;
  }

  lemma {:induction false} GateKinds(ops: seq<GateOp>, target: string)
    requires OpsOk(ops, target) && PrintGates(ops, target).Some?
    ensures GatesOwn(ops, PrintGates(ops, target).value)
    decreases |ops|
  {
    hide OpOk, PrintGate, Classify;
    if ops != [] {
      GateKind(ops[0], target, PrintGate(ops[0], target).value);
      GateKinds(ops[1..], target);
      assert forall i :: 1 <= i < |ops| ==> ops[i] == ops[1..][i - 1];
    }
  }

  lemma PreambleKinds(ir: NativeGateIR)
    requires ir.numQubits >= 0
    ensures PreambleOwn(ir, Preamble(ir))
  {
    hide LineOk, Classify, QubitLine, BitLine, ScanDecl;
    HeaderIs();
    IncludeIs();
    QubitLineIs(ir.numQubits);
    BitLineIs(|ir.measurements|);
  }

  /** The classical bit of the i-th measurement is i. */
  lemma MeasureIndex(i: nat, q: nat)
    ensures ScanRef(MeasureText(i, q)).Some? && ScanRef(MeasureText(i, q)).value.0 == i
  {
    var s2 := " " + ("measure" + (" " + (RefText(q) + ";")));
    MeasureHead(i, s2);
    MeasureSplit(i, q);
    hide ScanRef, RefText, MeasureText, Digits;
  }

  lemma MeasureKinds(qs: seq<int>)
    requires NonNeg(qs)
    ensures MeasuresOwn(qs, MeasureLines(qs))
  {
    hide Classify, MeasureText, ScanRef;
    forall i | 0 <= i < |qs|
      ensures Classify(MeasureLines(qs)[i]) == Measure(qs[i])
      ensures ScanRef(MeasureLines(qs)[i]).Some? && ScanRef(MeasureLines(qs)[i]).value.0 == i
    {
      MeasureLine(i, qs[i]);
      MeasureIndex(i, qs[i]);
    }
  }

  lemma ThreeParts(a: seq<string>, b: seq<string>, c: seq<string>)
    ensures var all := a + b + c;
      |all| == |a| + |b| + |c| && all[..|a|] == a && all[|a|..|a| + |b|] == b && all[|a| + |b|..] == c
  {
  }

  lemma OwnLengths(ir: NativeGateIR, a: seq<string>, b: seq<string>, c: seq<string>)
    requires PreambleOwn(ir, a) && GatesOwn(ir.gates, b) && MeasuresOwn(ir.measurements, c)
    ensures |a| == (if ir.measurements == [] then 3 else 4) && |b| == |ir.gates| && |c| == |ir.measurements|
  {
    hide Classify, ScanDecl, ScanRef;
  }

  lemma PrintedKinds(ir: NativeGateIR)
    requires ValidIR(ir) && PrintLines(ir).Some?
    ensures OwnKinds(ir, PrintLines(ir).value)
  {
    assert ir.numQubits >= 0;
    hide ValidIR, OpsOk, PrintGates, Preamble, MeasureLines, Normal, PreambleOwn, GatesOwn, MeasuresOwn, NonNeg;
    ValidParts(ir);
    PreambleKinds(ir);
    GateKinds(ir.gates, ir.target);
    MeasureKinds(ir.measurements);
    hide OwnKinds;
    KindsTogether(ir, Preamble(ir), PrintGates(ir.gates, ir.target).value, MeasureLines(ir.measurements));
  }

  lemma KindsTogether(ir: NativeGateIR, a: seq<string>, b: seq<string>, c: seq<string>)
    requires PreambleOwn(ir, a) && GatesOwn(ir.gates, b) && MeasuresOwn(ir.measurements, c)
    ensures OwnKinds(ir, a + b + c)
  {
    hide PreambleOwn, GatesOwn, MeasuresOwn;
    OwnLengths(ir, a, b, c);
    ThreeParts(a, b, c);
  }

  lemma {:induction false} GatesPrintable(ops: seq<GateOp>, target: string)
    requires OpsOk(ops, target)
    ensures PrintGates(ops, target).Some? <==> forall i :: 0 <= i < |ops| ==> Printable(ops[i].gate, target)
    decreases |ops|
  {
    if ops != [] {
      PrintableGates(ops[0], target);
      GatesPrintable(ops[1..], target);
      hide PrintGate, OpOk;
      assert forall i :: 0 <= i < |ops[1..]| ==> ops[1..][i] == ops[i + 1];
      assert forall i :: 1 <= i < |ops| ==> ops[i] == ops[1..][i - 1];
    }
  }

  /** The exact domain of the printer on valid circuits. */
  lemma PrinterDomain(ir: NativeGateIR)
    requires ValidIR(ir)
    ensures Print(ir).Some? <==>
      || ir.gates == []
      || ir.target == "cz"
      || (ir.target == "cnot" && forall i :: 0 <= i < |ir.gates| ==> ir.gates[i].gate !in {RX, RY, RZ})
  {
    ValidParts(ir);
    GatesPrintable(ir.gates, ir.target);
    hide PrintGates, ValidIR, OpOk, Preamble, MeasureLines;
    if ir.gates != [] && Print(ir).Some? { assert Printable(ir.gates[0].gate, ir.target); }
  }

  ghost predicate AllPrintable(ops: seq<GateOp>, target: string) {
    forall i :: 0 <= i < |ops| ==> Printable(ops[i].gate, target)
  }

  lemma ParseLineKeeps(st: Progress, line: string, target: string)
    requires AllPrintable(st.gates, target) && ParseLine(st, line, target).Ok?
    ensures AllPrintable(ParseLine(st, line, target).value.gates, target)
  {
    hide Classify, Strip, ParseParams, IsClose, ToReal;
  }

  lemma {:induction false} ParseKeeps(st: Progress, lines: seq<string>, target: string)
    requires AllPrintable(st.gates, target) && ParseLines(st, lines, target).Ok?
    ensures AllPrintable(ParseLines(st, lines, target).value.gates, target)
    decreases |lines|
  {
    if lines != [] {
      ParseLineKeeps(st, lines[0], target);
      hide ParseLine;
      ParseKeeps(ParseLine(st, lines[0], target).value, lines[1..], target);
    }
  }

  /** Normalising changes nothing that is printed, and normalising twice nothing at all. */
  lemma NormalOpPrints(op: GateOp, target: string)
    requires ShapeOk(op)
    ensures PrintGate(NormalOp(op), target) == PrintGate(op, target) && NormalOp(NormalOp(op)) == NormalOp(op)
  {
    hide Render, Round15, Plain, WithParams, Short;
    if op.params != [] {
      RoundShort(op.params[0]);
      assert op.params == [op.params[0]] && RoundAll(op.params) == [Round15(op.params[0])];
      assert RoundAll(RoundAll(op.params)) == RoundAll(op.params);
    } else {
      assert RoundAll(op.params) == [] && RoundAll([]) == [];
    }
  }

  lemma {:induction false} NormalOpsPrint(ops: seq<GateOp>, target: string)
    requires OpsOk(ops, target)
    ensures PrintGates(NormalOps(ops), target) == PrintGates(ops, target)
    decreases |ops|
  {
    if ops != [] {
      assert OpOk(ops[0], target);
      NormalOpPrints(ops[0], target);
      hide PrintGate, NormalOp, OpOk, ShapeOk;
      NormalOpsPrint(ops[1..], target);
      assert NormalOps(ops)[1..] == NormalOps(ops[1..]) && NormalOps(ops)[0] == NormalOp(ops[0]);
    }
  }

  /** Printing a circuit or its normal form gives the same text. */
  lemma PrintStable(ir: NativeGateIR)
    requires ValidIR(ir)
    ensures Print(Normal(ir)) == Print(ir) && Normal(Normal(ir)) == Normal(ir)
  {
    ValidParts(ir);
    NormalOpsPrint(ir.gates, ir.target);
    forall i | 0 <= i < |ir.gates| ensures NormalOp(NormalOp(ir.gates[i])) == NormalOp(ir.gates[i]) {
      NormalOpPrints(ir.gates[i], ir.target);
    }
    hide NormalOp, PrintGates, ValidIR, OpOk;
    assert NormalOps(NormalOps(ir.gates)) == NormalOps(ir.gates);
  }

  /** Normalisation: an accepted text gives a valid circuit that always prints; parsing the print gives the
      normal form; and from then on printing and parsing change nothing. */
  lemma Normalisation(text: string, target: string, metadata: Metadata)
    requires Parse(text, target, metadata).Ok?
    ensures var ir := Parse(text, target, metadata).value;
      && ValidIR(ir) && ir.target == target && ir.metadata == metadata && Print(ir).Some?
      && Parse(Print(ir).value, target, metadata) == Ok(Normal(ir))
      && Print(Normal(ir)) == Print(ir)
      && Normal(Normal(ir)) == Normal(ir)
  {
    var ir := Parse(text, target, metadata).value;
    ParseKeeps(START, SplitLines(Strip(text)), target);
    hide ValidIR, ParseLines, SplitLines, Strip, Print;
    ValidParts(ir);
    GatesPrintable(ir.gates, target);
    assert Print(ir).Some? by { PrintsWhenGatesDo(ir); }
    RoundTrip(ir);
    PrintStable(ir);
  }

  lemma PrintsWhenGatesDo(ir: NativeGateIR)
    ensures Print(ir).Some? <==> PrintGates(ir.gates, ir.target).Some?
  {
    hide PrintGates, Preamble, MeasureLines;
  }
}
