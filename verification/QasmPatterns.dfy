/** The line patterns as regular expressions: a line matches when it can be cut into the pieces
    the expression lists. The scanners of the parser find a cut exactly when there is one. */
module QasmPatterns {
  import opened Options
  import opened Text
  import opened Qasm

  // ---- character classes, written out ----

  lemma ClassTable(c: char)
    ensures In(c, Digit) <==> c in "0123456789"
    ensures In(c, Word) <==>
      c in "0123456789" || c == '_' || c in "abcdefghijklmnopqrstuvwxyz" || c in "ABCDEFGHIJKLMNOPQRSTUVWXYZ"
    ensures In(c, Version) <==> c in "0123456789."
    ensures In(c, Space) <==> c as int in {9, 10, 11, 12, 13, 28, 29, 30, 31, 32}
    ensures In(c, NotBreak) <==> c as int !in {10, 11, 12, 13, 28, 29, 30}
    ensures In(c, NotQuote) <==> c != '"'
    ensures In(c, NotClose) <==> c != ')'
    ensures In(c, NotComma) <==> c != ','
  {
    DigitTable(c);
    WordTable(c);
  }

  lemma DigitTable(c: char)
    ensures IsDigit(c) <==> c in "0123456789"
  {
    var ds := "0123456789";
    if IsDigit(c) { assert ds[c as int - 48] == c; }
  }

  lemma WordTable(c: char)
    ensures IsWord(c) <==>
      c in "0123456789" || c == '_' || c in "abcdefghijklmnopqrstuvwxyz" || c in "ABCDEFGHIJKLMNOPQRSTUVWXYZ"
  {
    DigitTable(c);
    LowerTable(c);
    UpperTable(c);
  }

  lemma LowerTable(c: char)
    ensures 'a' <= c <= 'z' <==> c in "abcdefghijklmnopqrstuvwxyz"
  {
    var low := "abcdefghijklmnopqrstuvwxyz";
    if 'a' <= c <= 'z' { assert low[c as int - 97] == c; }
  }

  lemma UpperTable(c: char)
    ensures 'A' <= c <= 'Z' <==> c in "ABCDEFGHIJKLMNOPQRSTUVWXYZ"
  {
    var up := "ABCDEFGHIJKLMNOPQRSTUVWXYZ";
    if 'A' <= c <= 'Z' { assert up[c as int - 65] == c; }
  }

  // ---- cutting ----

  /** One or more characters of the class. */
  ghost predicate Plus(s: string, k: Class) { s != "" && AllIn(s, k) }

  lemma {:induction false} SpanStops(s: string, k: Class)
    ensures Stops(s[Span(s, k)..], k)
  {
    if s != "" && In(s[0], k) {
      SpanStops(s[1..], k);
      assert s[1..][Span(s[1..], k)..] == s[Span(s, k)..];
    }
  }

  lemma Some1Cut(s: string, k: Class)
    ensures var r := Some1(s, k); r.Some? ==> s == r.value.0 + r.value.1 && Plus(r.value.0, k) && Stops(r.value.1, k)
  {
    SpanStops(s, k);
  }

  lemma SkipCut(s: string, k: Class) returns (a: string)
    ensures s == a + Skip(s, k) && AllIn(a, k) && Stops(Skip(s, k), k)
  {
    a := s[..Span(s, k)];
    SpanStops(s, k);
  }

  lemma LitCut(s: string, lit: string)
    ensures Lit(s, lit).Some? ==> s == lit + Lit(s, lit).value
  {
  }

  lemma SkipIs(a: string, b: string, k: Class)
    requires AllIn(a, k) && Stops(b, k)
    ensures Skip(a + b, k) == b
  {
    SpanIs(a, b, k);
  }

  /** Optional blanks and a semicolon, with anything after it. */
  ghost predicate EndCut(s: string, a: string, rest: string) { s == a + (";" + rest) && AllIn(a, Space) }

  ghost predicate EndMatch(s: string) { exists a, rest :: EndCut(s, a, rest) }

  lemma EndExact(s: string)
    ensures Lit(Skip(s, Space), ";").Some? <==> EndMatch(s)
  {
    var b := Skip(s, Space);
    if Lit(b, ";").Some? {
      var a := SkipCut(s, Space);
      LitCut(b, ";");
      hide Skip, Lit;
      assert EndCut(s, a, Lit(b, ";").value);
    }
    if EndMatch(s) {
      var a, rest :| EndCut(s, a, rest);
      SkipIs(a, ";" + rest, Space);
      LitIs(";", rest);
    }
  }

  // ---- `OPENQASM\s+[\d.]+\s*;` ----

  ghost predicate HeaderCut(s: string, a: string, v: string, end: string) {
    s == "OPENQASM" + (a + (v + end)) && Plus(a, Space) && Plus(v, Version) && EndMatch(end)
  }

  ghost predicate HeaderMatch(s: string) { exists a, v, end :: HeaderCut(s, a, v, end) }

  lemma EndStarts(s: string)
    requires EndMatch(s)
    ensures s != "" && (In(s[0], Space) || s[0] == ';')
  {
    var a, rest :| EndCut(s, a, rest);
  }

  lemma HeaderExact(s: string)
    ensures ScanHeader(s).Some? <==> HeaderMatch(s)
  {
    if ScanHeader(s).Some? { HeaderSound(s); }
    if HeaderMatch(s) {
      var a, v, end :| HeaderCut(s, a, v, end);
      HeaderFound(a, v, end);
    }
  }

  lemma HeaderSound(s: string)
    requires ScanHeader(s).Some?
    ensures HeaderMatch(s)
  {
    LitCut(s, "OPENQASM");
    var s1 := Lit(s, "OPENQASM").value;
    Some1Cut(s1, Space);
    var (a, s2) := Some1(s1, Space).value;
    Some1Cut(s2, Version);
    var (v, s3) := Some1(s2, Version).value;
    EndExact(s3);
    hide Lit, Some1, Skip, EndMatch, Plus;
    assert HeaderCut(s, a, v, s3);
  }

  lemma HeaderFound(a: string, v: string, end: string)
    requires Plus(a, Space) && Plus(v, Version) && EndMatch(end)
    ensures ScanHeader("OPENQASM" + (a + (v + end))).Some?
  {
    EndStarts(end);
    LitIs("OPENQASM", a + (v + end));
    assert (v + end)[0] == v[0];
    Some1Is(a, v + end, Space);
    Some1Is(v, end, Version);
    EndExact(end);
    hide Lit, Some1, Skip, EndMatch;
  }

  // ---- `include\s+"[^"]+"\s*;` ----

  ghost predicate IncludeCut(s: string, a: string, file: string, end: string) {
    s == "include" + (a + ("\"" + (file + ("\"" + end)))) && Plus(a, Space) && Plus(file, NotQuote) && EndMatch(end)
  }

  ghost predicate IncludeMatch(s: string) { exists a, file, end :: IncludeCut(s, a, file, end) }

  lemma IncludeExact(s: string)
    ensures ScanInclude(s).Some? <==> IncludeMatch(s)
  {
    if ScanInclude(s).Some? { IncludeSound(s); }
    if IncludeMatch(s) {
      var a, file, end :| IncludeCut(s, a, file, end);
      IncludeFound(a, file, end);
    }
  }

  lemma IncludeSound(s: string)
    requires ScanInclude(s).Some?
    ensures IncludeMatch(s)
  {
    LitCut(s, "include");
    var s1 := Lit(s, "include").value;
    Some1Cut(s1, Space);
    var (a, s2) := Some1(s1, Space).value;
    LitCut(s2, "\"");
    var s3 := Lit(s2, "\"").value;
    Some1Cut(s3, NotQuote);
    var (file, s4) := Some1(s3, NotQuote).value;
    LitCut(s4, "\"");
    var s5 := Lit(s4, "\"").value;
    EndExact(s5);
    hide Lit, Some1, Skip, EndMatch, Plus;
    assert IncludeCut(s, a, file, s5);
  }

  lemma IncludeFound(a: string, file: string, end: string)
    requires Plus(a, Space) && Plus(file, NotQuote) && EndMatch(end)
    ensures ScanInclude("include" + (a + ("\"" + (file + ("\"" + end))))).Some?
  {
    LitIs("include", a + ("\"" + (file + ("\"" + end))));
    Some1Is(a, "\"" + (file + ("\"" + end)), Space);
    LitIs("\"", file + ("\"" + end));
    Some1Is(file, "\"" + end, NotQuote);
    LitIs("\"", end);
    EndExact(end);
    hide Lit, Some1, Skip, EndMatch;
  }

  // ---- `kind\[(\d+)]\s+\w+\s*;` ----

  ghost predicate DeclCut(s: string, kind: string, ds: string, a: string, w: string, end: string) {
    s == kind + (ds + ("]" + (a + (w + end)))) && Plus(ds, Digit) && Plus(a, Space) && Plus(w, Word) && EndMatch(end)
  }

  ghost predicate DeclMatch(s: string, kind: string, n: nat) {
    exists ds, a, w, end :: DeclCut(s, kind, ds, a, w, end) && Value(ds) == n
  }

  /** The number captured is the value of the digits, whatever cut is taken. */
  lemma DeclExact(s: string, kind: string, n: nat)
    ensures ScanDecl(s, kind) == Some(n) <==> DeclMatch(s, kind, n)
  {
    if ScanDecl(s, kind) == Some(n) { DeclSound(s, kind); }
    if DeclMatch(s, kind, n) {
      var ds, a, w, end :| DeclCut(s, kind, ds, a, w, end) && Value(ds) == n;
      DeclFound(kind, ds, a, w, end);
    }
  }

  lemma DeclSound(s: string, kind: string)
    requires ScanDecl(s, kind).Some?
    ensures DeclMatch(s, kind, ScanDecl(s, kind).value)
  {
    LitCut(s, kind);
    var s1 := Lit(s, kind).value;
    Some1Cut(s1, Digit);
    var (ds, s2) := Some1(s1, Digit).value;
    LitCut(s2, "]");
    var s3 := Lit(s2, "]").value;
    Some1Cut(s3, Space);
    var (a, s4) := Some1(s3, Space).value;
    Some1Cut(s4, Word);
    var (w, s5) := Some1(s4, Word).value;
    EndExact(s5);
    assert AllIn(ds, Digit);
    hide Lit, Some1, Skip, EndMatch, Value, AllIn;
    assert DeclCut(s, kind, ds, a, w, s5) && Value(ds) == ScanDecl(s, kind).value;
  }

  lemma DeclFound(kind: string, ds: string, a: string, w: string, end: string)
    requires Plus(ds, Digit) && Plus(a, Space) && Plus(w, Word) && EndMatch(end)
    ensures ScanDecl(kind + (ds + ("]" + (a + (w + end)))), kind) == Some(Value(ds))
  {
    EndStarts(end);
    LitIs(kind, ds + ("]" + (a + (w + end))));
    Some1Is(ds, "]" + (a + (w + end)), Digit);
    LitIs("]", a + (w + end));
    assert (w + end)[0] == w[0];
    Some1Is(a, w + end, Space);
    Some1Is(w, end, Word);
    EndExact(end);
    hide Lit, Some1, Skip, EndMatch, Value;
  }

  // ---- `\w+\[(\d+)]` ----

  ghost predicate RefCut(s: string, w: string, ds: string, rest: string) {
    s == w + ("[" + (ds + ("]" + rest))) && Plus(w, Word) && Plus(ds, Digit)
  }

  ghost predicate RefMatch(s: string, n: nat, rest: string) { exists w, ds :: RefCut(s, w, ds, rest) && Value(ds) == n }

  lemma RefExact(s: string, n: nat, rest: string)
    ensures ScanRef(s) == Some((n, rest)) <==> RefMatch(s, n, rest)
  {
    if ScanRef(s) == Some((n, rest)) { RefSound(s); }
    if RefMatch(s, n, rest) {
      var w, ds :| RefCut(s, w, ds, rest) && Value(ds) == n;
      RefFound(w, ds, rest);
    }
  }

  lemma RefSound(s: string)
    requires ScanRef(s).Some?
    ensures RefMatch(s, ScanRef(s).value.0, ScanRef(s).value.1)
  {
    Some1Cut(s, Word);
    var (w, s1) := Some1(s, Word).value;
    LitCut(s1, "[");
    var s2 := Lit(s1, "[").value;
    Some1Cut(s2, Digit);
    var (ds, s3) := Some1(s2, Digit).value;
    LitCut(s3, "]");
    var s4 := Lit(s3, "]").value;
    assert AllIn(ds, Digit);
    hide Lit, Some1, Value, AllIn;
    assert RefCut(s, w, ds, s4) && Value(ds) == ScanRef(s).value.0;
  }

  lemma RefFound(w: string, ds: string, rest: string)
    requires Plus(w, Word) && Plus(ds, Digit)
    ensures ScanRef(w + ("[" + (ds + ("]" + rest)))) == Some((Value(ds), rest))
  {
    Some1Is(w, "[" + (ds + ("]" + rest)), Word);
    LitIs("[", ds + ("]" + rest));
    Some1Is(ds, "]" + rest, Digit);
    LitIs("]", rest);
    hide Lit, Some1, Value;
  }

  lemma RefStarts(s: string, n: nat, rest: string)
    requires RefMatch(s, n, rest)
    ensures s != "" && In(s[0], Word)
  {
    var w, ds :| RefCut(s, w, ds, rest) && Value(ds) == n;
  }

  // ---- `\w+\[(\d+)]\s*=\s*measure\s+\w+\[(\d+)]\s*;` ----

  ghost predicate MiddleCut(s: string, a: string, b: string, c: string, t: string) {
    s == a + ("=" + (b + ("measure" + (c + t)))) && AllIn(a, Space) && AllIn(b, Space) && Plus(c, Space)
  }

  ghost predicate MeasureCut(s: string, i: nat, s1: string, a: string, b: string, c: string, t: string, q: nat,
    u: string) {
    RefMatch(s, i, s1) && MiddleCut(s1, a, b, c, t) && RefMatch(t, q, u) && EndMatch(u)
  }

  ghost predicate MeasureMatch(s: string, q: nat) {
    exists i, s1, a, b, c, t, u :: MeasureCut(s, i, s1, a, b, c, t, q, u)
  }

  lemma MeasureExact(s: string, q: nat)
    ensures ScanMeasure(s) == Some(q) <==> MeasureMatch(s, q)
  {
    if ScanMeasure(s) == Some(q) { MeasureSound(s); }
    if MeasureMatch(s, q) {
      var i, s1, a, b, c, t, u :| MeasureCut(s, i, s1, a, b, c, t, q, u);
      MeasureFound(s, i, s1, a, b, c, t, q, u);
    }
  }

  lemma MeasureSound(s: string)
    requires ScanMeasure(s).Some?
    ensures MeasureMatch(s, ScanMeasure(s).value)
  {
    RefSound(s);
    var (i, s1) := ScanRef(s).value;
    var a := SkipCut(s1, Space);
    LitCut(Skip(s1, Space), "=");
    var s2 := Lit(Skip(s1, Space), "=").value;
    var b := SkipCut(s2, Space);
    LitCut(Skip(s2, Space), "measure");
    var s3 := Lit(Skip(s2, Space), "measure").value;
    Some1Cut(s3, Space);
    var (c, t) := Some1(s3, Space).value;
    RefSound(t);
    var (q, u) := ScanRef(t).value;
    EndExact(u);
    hide Lit, Some1, Skip, EndMatch, RefMatch, ScanRef, Plus, AllIn;
    assert MiddleCut(s1, a, b, c, t);
    assert MeasureCut(s, i, s1, a, b, c, t, q, u);
  }

  lemma MeasureFound(s: string, i: nat, s1: string, a: string, b: string, c: string, t: string, q: nat, u: string)
    requires MeasureCut(s, i, s1, a, b, c, t, q, u)
    ensures ScanMeasure(s) == Some(q)
  {
    RefExact(s, i, s1);
    RefExact(t, q, u);
    RefStarts(t, q, u);
    EndExact(u);
    MiddleFound(a, b, c, t);
    hide Lit, Some1, Skip, EndMatch, RefMatch, ScanRef, AllIn, Plus;
  }

  lemma MiddleFound(a: string, b: string, c: string, t: string)
    requires AllIn(a, Space) && AllIn(b, Space) && Plus(c, Space) && t != "" && In(t[0], Word)
    ensures var s1 := a + ("=" + (b + ("measure" + (c + t))));
      && Lit(Skip(s1, Space), "=") == Some(b + ("measure" + (c + t)))
      && Lit(Skip(b + ("measure" + (c + t)), Space), "measure") == Some(c + t)
      && Some1(c + t, Space) == Some((c, t))
  {
    hide Lit, Some1, Skip;
    SkipIs(a, "=" + (b + ("measure" + (c + t))), Space);
    LitIs("=", b + ("measure" + (c + t)));
    assert ("measure" + (c + t))[0] == 'm';
    SkipIs(b, "measure" + (c + t), Space);
    LitIs("measure", c + t);
    Some1Is(c, t, Space);
  }

  // ---- `(\w+)(?:\(([^)]*)\))?\s+((?:\w+\[\d+])(?:\s*,\s*\w+\[\d+])*)\s*;` ----

  ghost predicate CommaCut(s: string, a: string, b: string, t: string) {
    s == a + ("," + (b + t)) && AllIn(a, Space) && AllIn(b, Space)
  }

  /** Any number of further references. */
  ghost predicate MoreMatch(s: string, qs: seq<nat>, rest: string)
    decreases |qs|
  {
    if qs == [] then rest == s
    else exists a, b, t, u :: CommaCut(s, a, b, t) && RefMatch(t, qs[0], u) && MoreMatch(u, qs[1..], rest)
  }

  ghost predicate RefsMatch(s: string, qs: seq<nat>, rest: string) {
    qs != [] && exists u :: RefMatch(s, qs[0], u) && MoreMatch(u, qs[1..], rest)
  }

  lemma {:induction false} MoreSound(s: string)
    ensures var (qs, rest) := ScanMore(s); MoreMatch(s, qs, rest)
    decreases |s|
  {
    var comma := Lit(Skip(s, Space), ",");
    if comma.Some? {
      var r := ScanRef(Skip(comma.value, Space));
      if r.Some? {
        var a := SkipCut(s, Space);
        LitCut(Skip(s, Space), ",");
        var b := SkipCut(comma.value, Space);
        var t := Skip(comma.value, Space);
        RefSound(t);
        var (q, u) := r.value;
        assert CommaCut(s, a, b, t);
        ShorterCut(s, a, b, t, u);
        MoreSound(u);
        hide Lit, Skip, ScanRef, RefMatch, CommaCut;
        var (qs, rest) := ScanMore(u);
        MoreStepMatch(s, a, b, t, q, u, qs, rest);
      }
    }
  }

  lemma ShorterCut(s: string, a: string, b: string, t: string, u: string)
    requires CommaCut(s, a, b, t) && |u| < |t|
    ensures |u| < |s|
  {
  }

  lemma MoreStepMatch(s: string, a: string, b: string, t: string, q: nat, u: string, qs: seq<nat>, rest: string)
    requires CommaCut(s, a, b, t) && RefMatch(t, q, u) && MoreMatch(u, qs, rest)
    ensures MoreMatch(s, [q] + qs, rest)
  {
    hide CommaCut, RefMatch;
    assert ([q] + qs)[0] == q && ([q] + qs)[1..] == qs;
  }

  /** Before the semicolon there is only one way to read the references. */
  lemma {:induction false} MoreFound(s: string, qs: seq<nat>, rest: string)
    requires MoreMatch(s, qs, rest) && EndMatch(rest)
    ensures ScanMore(s) == (qs, rest)
    decreases |qs|
  {
    hide ScanMore, Lit, Skip, ScanRef;
    if qs == [] {
      NoComma(s);
      MoreStops(s);
    } else {
      var a, b, t, u :| CommaCut(s, a, b, t) && RefMatch(t, qs[0], u) && MoreMatch(u, qs[1..], rest);
      hide MoreMatch, EndMatch;
      RefStarts(t, qs[0], u);
      RefExact(t, qs[0], u);
      CommaFound(s, a, b, t);
      hide RefMatch, CommaCut;
      MoreFound(u, qs[1..], rest);
      MoreUnfolds(s, b + t, t, qs[0], u);
      assert [qs[0]] + qs[1..] == qs;
    }
  }

  lemma MoreStops(s: string)
    requires Lit(Skip(s, Space), ",").None?
    ensures ScanMore(s) == ([], s)
  {
    hide Lit, Skip;
  }

  lemma MoreUnfolds(s: string, s1: string, t: string, q: nat, u: string)
    requires Lit(Skip(s, Space), ",") == Some(s1) && Skip(s1, Space) == t && ScanRef(t) == Some((q, u))
    ensures var (qs, rest) := ScanMore(u); ScanMore(s) == ([q] + qs, rest)
  {
    hide ScanRef;
  }

  lemma NoComma(s: string)
    requires EndMatch(s)
    ensures Lit(Skip(s, Space), ",").None?
  {
    var a, rest :| EndCut(s, a, rest);
    SkipIs(a, ";" + rest, Space);
  }

  lemma CommaFound(s: string, a: string, b: string, t: string)
    requires CommaCut(s, a, b, t) && t != "" && In(t[0], Word)
    ensures Lit(Skip(s, Space), ",") == Some(b + t) && Skip(b + t, Space) == t
  {
    SkipIs(a, "," + (b + t), Space);
    LitIs(",", b + t);
    SkipIs(b, t, Space);
  }

  /** The optional parameters in parentheses. */
  ghost predicate ParamsCut(p: string, ps: string) {
    (p == "" && ps == "") || (p == "(" + (ps + ")") && AllIn(ps, NotClose))
  }

  ghost predicate GateCut(s: string, name: string, p: string, ps: string, c: string, t: string, qs: seq<nat>,
    u: string) {
    && s == name + (p + (c + t)) && Plus(name, Word) && ParamsCut(p, ps) && Plus(c, Space)
    && RefsMatch(t, qs, u) && EndMatch(u)
  }

  ghost predicate GateMatch(s: string, name: string, ps: string, qs: seq<nat>) {
    exists p, c, t, u :: GateCut(s, name, p, ps, c, t, qs, u)
  }

  lemma GateExact(s: string, name: string, ps: string, qs: seq<nat>)
    ensures ScanGate(s) == Some((name, ps, qs)) <==> GateMatch(s, name, ps, qs)
  {
    if ScanGate(s) == Some((name, ps, qs)) { GateSound(s); }
    if GateMatch(s, name, ps, qs) {
      var p, c, t, u :| GateCut(s, name, p, ps, c, t, qs, u);
      GateFound(s, name, p, ps, c, t, qs, u);
    }
  }

  lemma RefsSound(s: string)
    requires ScanRefs(s).Some?
    ensures RefsMatch(s, ScanRefs(s).value.0, ScanRefs(s).value.1)
  {
    RefSound(s);
    var (q, u) := ScanRef(s).value;
    MoreSound(u);
    hide ScanRef, ScanMore, RefMatch, MoreMatch;
    var (qs, rest) := ScanMore(u);
    assert ([q] + qs)[0] == q && ([q] + qs)[1..] == qs;
  }

  lemma RefsFound(s: string, qs: seq<nat>, rest: string)
    requires RefsMatch(s, qs, rest) && EndMatch(rest)
    ensures ScanRefs(s) == Some((qs, rest)) && s != "" && In(s[0], Word)
  {
    var u :| RefMatch(s, qs[0], u) && MoreMatch(u, qs[1..], rest);
    RefExact(s, qs[0], u);
    RefStarts(s, qs[0], u);
    MoreFound(u, qs[1..], rest);
    hide ScanRef, ScanMore, RefMatch, MoreMatch, EndMatch;
    assert [qs[0]] + qs[1..] == qs;
  }

  /** Parentheses that are closed. */
  ghost predicate Closed(s: string) {
    Lit(s, "(").Some? && var s1 := Lit(s, "(").value; Lit(s1[Span(s1, NotClose)..], ")").Some?
  }

  lemma ParamsAbsent(s: string)
    requires !Closed(s)
    ensures ScanParams(s) == ("", s)
  {
    hide Lit, Span;
  }

  lemma ParamsPresent(s: string)
    requires Closed(s)
    ensures var (ps, rest) := ScanParams(s); s == "(" + (ps + (")" + rest)) && AllIn(ps, NotClose)
  {
    LitCut(s, "(");
    var s1 := Lit(s, "(").value;
    var n := Span(s1, NotClose);
    var after := s1[n..];
    LitCut(after, ")");
    hide Lit, Span;
    assert s1 == s1[..n] + after;
  }

  lemma Parens(ps: string, rest: string)
    ensures "(" + (ps + (")" + rest)) == ("(" + (ps + ")")) + rest
  {
  }

  lemma ParamsSound(s: string) returns (p: string)
    ensures var (ps, rest) := ScanParams(s); s == p + rest && ParamsCut(p, ps)
  {
    hide ScanParams;
    if Closed(s) {
      ParamsPresent(s);
      var (ps, rest) := ScanParams(s);
      Parens(ps, rest);
      p := "(" + (ps + ")");
    } else {
      ParamsAbsent(s);
      p := "";
    }
    hide Closed;
  }

  lemma GateSound(s: string)
    requires ScanGate(s).Some?
    ensures var (name, ps, qs) := ScanGate(s).value; GateMatch(s, name, ps, qs)
  {
    Some1Cut(s, Word);
    var (name, s1) := Some1(s, Word).value;
    var p := ParamsSound(s1);
    var (ps, s2) := ScanParams(s1);
    Some1Cut(s2, Space);
    var (c, t) := Some1(s2, Space).value;
    RefsSound(t);
    var (qs, u) := ScanRefs(t).value;
    EndExact(u);
    hide Lit, Some1, Skip, EndMatch, RefsMatch, ScanRefs, ScanParams, Plus, ParamsCut;
    assert GateCut(s, name, p, ps, c, t, qs, u);
  }

  lemma ParamsFound(p: string, ps: string, c: string, t: string)
    requires ParamsCut(p, ps) && Plus(c, Space)
    ensures ScanParams(p + (c + t)) == (ps, c + t) && p + (c + t) != "" && !In((p + (c + t))[0], Word)
  {
    if p == "" {
      assert p + (c + t) == c + t && (c + t)[0] == c[0];
    } else {
      var s2 := ps + (")" + (c + t));
      assert p + (c + t) == "(" + s2;
      LitIs("(", s2);
      SpanIs(ps, ")" + (c + t), NotClose);
      LitIs(")", c + t);
      hide Lit, Span;
      assert s2[..|ps|] == ps && s2[|ps|..] == ")" + (c + t);
    }
  }

  lemma GateFound(s: string, name: string, p: string, ps: string, c: string, t: string, qs: seq<nat>, u: string)
    requires GateCut(s, name, p, ps, c, t, qs, u)
    ensures ScanGate(s) == Some((name, ps, qs))
  {
    RefsFound(t, qs, u);
    ParamsFound(p, ps, c, t);
    Some1Is(name, p + (c + t), Word);
    Some1Is(c, t, Space);
    EndExact(u);
    hide Lit, Some1, Skip, EndMatch, RefsMatch, ScanRefs, ScanParams, Plus, ParamsCut;
  }
}
