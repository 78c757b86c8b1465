/** Numbers as text, exactly: what rounding to 15 digits means, when the exponent is written, and which texts
    `float()` reads as which number. */
module FloatSyntax {
  import opened Options
  import opened Text
  import opened Decimals

  // ---- rounding ----

  /** q units are nearest to n, the even one of two that are equally near. */
  ghost predicate Nearest(n: nat, unit: nat, q: nat) { Near(q * unit - n, unit, q) }

  ghost predicate Near(diff: int, unit: int, q: nat) {
    -unit < 2 * diff < unit || ((2 * diff == unit || 2 * diff == -unit) && q % 2 == 0)
  }

  lemma FarAway(n: nat, unit: nat, a: nat, r: nat, q: nat)
    requires unit >= 1 && n == a * unit + r && r < unit && (q < a || q > a + 1)
    ensures !Nearest(n, unit, q)
  {
    if q < a {
      Times(q + 1, a, unit);
      assert (q + 1) * unit == q * unit + unit;
    } else {
      Times(a + 2, q, unit);
      assert (a + 2) * unit == a * unit + 2 * unit;
    }
  }

  lemma RoundExact(n: nat, unit: nat, q: nat)
    requires unit >= 1
    ensures q == RoundHalfEven(n, unit) <==> Nearest(n, unit, q)
  {
    var (a, r) := (n / unit, n % unit);
    assert n == a * unit + r && 0 <= r < unit;
    if q < a || q > a + 1 {
      FarAway(n, unit, a, r, q);
    } else {
      assert (a + 1) * unit == a * unit + unit;
      assert q * unit - n == if q == a then -r else unit - r;
      NearOfTwo(unit, a, r, q);
    }
  }

  lemma NearOfTwo(unit: nat, a: nat, r: nat, q: nat)
    requires r < unit && (q == a || q == a + 1)
    ensures Near(if q == a then -(r as int) else unit - r, unit, q) <==>
      q == if 2 * r > unit || (2 * r == unit && a % 2 == 1) then a + 1 else a
  {
  }

  lemma Times(a: int, b: int, c: nat)
    requires a <= b
    ensures a * c <= b * c
  {
  }

  /** Dropping the last k digits of d leaves q. */
  ghost predicate RoundsTo(d: Param, k: nat, q: nat) {
    Nearest(d.mant, Pow10(k), q) && Round15(d) == Normalize(d.neg, q, d.exp + k)
  }

  /** Rounding keeps up to 15 digits; of a longer mantissa it keeps the 15 digits of the nearest multiple. */
  lemma Round15Exact(d: Param) returns (q: nat)
    ensures var k := |Digits(d.mant)| - 15; if k <= 0 then Round15(d) == d else RoundsTo(d, k, q)
  {
    var k := |Digits(d.mant)| - 15;
    q := 0;
    if k > 0 {
      q := RoundHalfEven(d.mant, Pow10(k));
      RoundExact(d.mant, Pow10(k), q);
    }
    hide Nearest, RoundHalfEven, Pow10, Normalize;
  }

  /** The exponent is written exactly for numbers below 10^-4 or from 10^15 on. */
  lemma NotationExact(d: Param)
    ensures 'e' in Render(d) <==> d.mant != 0 && !(-4 <= |Digits(d.mant)| - 1 + d.exp < 15)
  {
    if d.mant != 0 { MagnitudeNotation(Digits(d.mant), d.exp); }
    hide Magnitude, Digits;
  }

  lemma MagnitudeNotation(ds: string, exp: int)
    requires ds != "" && AllIn(ds, Digit)
    ensures 'e' in Magnitude(ds, exp) <==> !(-4 <= |ds| - 1 + exp < 15)
  {
    var x := |ds| - 1 + exp;
    if -4 <= x < 15 {
      assert AllIn(Zeros(if exp >= 0 then exp else if x < 0 then -x - 1 else 0), Digit);
      assert forall c :: c in Magnitude(ds, exp) ==> IsDigit(c) || c == '.';
    } else {
      var m := Magnitude(ds, exp);
      var head := ds[..1] + (if |ds| > 1 then "." + ds[1..] else "");
      assert m[|head|] == 'e';
    }
  }

  // ---- digits with underscores ----

  /** A digit, then digits that may each follow an underscore. */
  ghost predicate Grouped(s: string) {
    s != "" && IsDigit(s[0]) && (|s| == 1 || Grouped(s[1..]) || (s[1] == '_' && Grouped(s[2..])))
  }

  /** Without the underscores. */
  function Plain(s: string): string {
    if s == "" then "" else (if s[0] == '_' then "" else [s[0]]) + Plain(s[1..])
  }

  ghost predicate Ends(rest: string) { rest == "" || (!IsDigit(rest[0]) && rest[0] != '_') }

  lemma {:induction false} PlainDigits(s: string)
    requires Grouped(s)
    ensures AllIn(Plain(s), Digit) && Plain(s) != ""
  {
    if |s| > 1 {
      if Grouped(s[1..]) {
        PlainDigits(s[1..]);
      } else {
        PlainDigits(s[2..]);
        assert s[1..][1..] == s[2..];
      }
    }
  }

  lemma PlainSkips(a: string)
    requires |a| >= 2 && a[0] != '_' && a[1] == '_'
    ensures Plain(a) == [a[0]] + Plain(a[2..])
  {
    assert a[1..][0] == '_' && a[1..][1..] == a[2..];
    assert "" + Plain(a[2..]) == Plain(a[2..]);
  }

  lemma {:induction false} DigitPartFound(a: string, rest: string)
    requires Grouped(a) && Ends(rest)
    ensures DigitPart(a + rest) == (Plain(a), rest)
    decreases |a|
  {
    var s := a + rest;
    assert s[0] == a[0];
    if |a| == 1 {
      assert s[1..] == rest && DigitPart(rest) == ("", rest);
      assert Plain(a[1..]) == "";
    } else if Grouped(a[1..]) {
      assert s[1] == a[1] && s[1..] == a[1..] + rest;
      DigitPartFound(a[1..], rest);
    } else {
      assert IsDigit(a[2..][0]) && a[2..][0] == a[2];
      assert s[1] == a[1] && s[2] == a[2] && s[2..] == a[2..] + rest;
      DigitPartFound(a[2..], rest);
      PlainSkips(a);
    }
  }

  /** a is what was read of s. */
  ghost predicate IsCut(s: string, a: string) {
    var (ds, rest) := DigitPart(s);
    && s == a + rest && (if a == "" then ds == "" else Grouped(a) && ds == Plain(a))
    && (a == "" <==> s == "" || !IsDigit(s[0]))
  }

  lemma {:induction false} DigitPartCut(s: string) returns (a: string)
    ensures IsCut(s, a)
    decreases |s|
  {
    hide IsCut;
    a := "";
    if s == "" || !IsDigit(s[0]) {
      NoCut(s);
    } else if |s| >= 3 && s[1] == '_' && IsDigit(s[2]) {
      var b := DigitPartCut(s[2..]);
      a := [s[0], '_'] + b;
      CutTwo(s, b);
    } else {
      var b := DigitPartCut(s[1..]);
      a := [s[0]] + b;
      CutOne(s, b);
    }
  }

  lemma NoCut(s: string)
    requires s == "" || !IsDigit(s[0])
    ensures IsCut(s, "")
  {
  }

  lemma CutTwo(s: string, b: string)
    requires |s| >= 3 && IsDigit(s[0]) && s[1] == '_' && IsDigit(s[2]) && IsCut(s[2..], b)
    ensures IsCut(s, [s[0], '_'] + b)
  {
    hide DigitPart, Grouped, Plain;
    var a := [s[0], '_'] + b;
    DigitPartSteps(s);
    assert s == [s[0], '_'] + s[2..] && a[2..] == b;
    PlainSkips(a);
    CutGroups(s, a);
  }

  lemma CutOne(s: string, b: string)
    requires s != "" && IsDigit(s[0]) && !(|s| >= 3 && s[1] == '_' && IsDigit(s[2])) && IsCut(s[1..], b)
    ensures IsCut(s, [s[0]] + b)
  {
    hide DigitPart, Grouped, Plain;
    var a := [s[0]] + b;
    DigitPartSteps(s);
    assert s == [s[0]] + s[1..] && a[1..] == b;
    PlainKeeps(a);
    CutGroups(s, a);
  }

  lemma DigitPartSteps(s: string)
    ensures s == "" || !IsDigit(s[0]) ==> DigitPart(s) == ("", s)
    ensures s != "" && IsDigit(s[0]) ==>
      var rest := if |s| >= 3 && s[1] == '_' && IsDigit(s[2]) then s[2..] else s[1..];
      DigitPart(s) == ([s[0]] + DigitPart(rest).0, DigitPart(rest).1)
  {
  }

  lemma PlainKeeps(a: string)
    requires a != "" && a[0] != '_'
    ensures Plain(a) == [a[0]] + Plain(a[1..]) && Plain("") == ""
  {
  }

  /** One digit more. */
  lemma CutGroups(s: string, a: string)
    requires s != "" && IsDigit(s[0]) && a != "" && a[0] == s[0]
    ensures |a| == 1 || Grouped(a[1..]) || (a[1] == '_' && Grouped(a[2..])) ==> Grouped(a)
  {
  }

  // ---- the grammar of `float()` ----

  ghost predicate IsSign(sign: string) { sign == "" || sign == "+" || sign == "-" }

  ghost predicate Part(s: string) { s == "" || Grouped(s) }

  ghost predicate ExpCut(x: string, c: char, sign: string, ds: string) {
    x == [c] + (sign + ds) && (c == 'e' || c == 'E') && IsSign(sign) && Grouped(ds)
  }

  function Signed(sign: string, ds: string): int
    requires AllIn(ds, Digit)
  {
    if sign == "-" then -(Value(ds) as int) else Value(ds)
  }

  /** The exponent part: nothing, or `e`, a sign and digits. */
  ghost predicate ExpMatch(x: string, e: int) {
    || (x == "" && e == 0)
    || exists c, sign, ds :: ExpCut(x, c, sign, ds) && AllIn(Plain(ds), Digit) && e == Signed(sign, Plain(ds))
  }

  lemma SignCut(s: string) returns (sign: string)
    ensures var (neg, rest) := SignPart(s);
      s == sign + rest && IsSign(sign) && (neg <==> sign == "-")
      && (sign == "" ==> s == "" || (s[0] != '-' && s[0] != '+'))
  {
    sign := if s != "" && s[0] == '-' then "-" else if s != "" && s[0] == '+' then "+" else "";
  }

  lemma SignFound(sign: string, body: string)
    requires IsSign(sign) && (body == "" || (body[0] != '-' && body[0] != '+'))
    ensures SignPart(sign + body) == (sign == "-", body)
  {
    if sign != "" { assert (sign + body)[1..] == body; } else { assert sign + body == body; }
  }

  lemma ExpExact(x: string, e: int)
    ensures ExpPart(x) == Some(e) <==> ExpMatch(x, e)
  {
    if ExpPart(x) == Some(e) && x != "" { ExpSound(x); }
    if ExpMatch(x, e) && x != "" {
      var c, sign, ds :| ExpCut(x, c, sign, ds) && AllIn(Plain(ds), Digit) && e == Signed(sign, Plain(ds));
      ExpFound(c, sign, ds);
    }
  }

  lemma ExpSound(x: string)
    requires x != "" && ExpPart(x).Some?
    ensures ExpMatch(x, ExpPart(x).value)
  {
    var sign := SignCut(x[1..]);
    var (neg, t) := SignPart(x[1..]);
    var a := DigitPartCut(t);
    DigitPartIn(t);
    var (ds, rest) := DigitPart(t);
    hide DigitPart, SignPart, Value, Grouped;
    assert t == a && x == [x[0]] + x[1..];
    assert ExpCut(x, x[0], sign, a);
    assert ExpPart(x).value == Signed(sign, Plain(a));
  }

  lemma ExpFound(c: char, sign: string, ds: string)
    requires (c == 'e' || c == 'E') && IsSign(sign) && Grouped(ds)
    ensures AllIn(Plain(ds), Digit) && ExpPart([c] + (sign + ds)) == Some(Signed(sign, Plain(ds)))
  {
    PlainDigits(ds);
    SignFound(sign, ds);
    DigitPartFound(ds, "");
    assert ds + "" == ds && ([c] + (sign + ds))[1..] == sign + ds;
    hide DigitPart, SignPart, Value, Grouped, Plain;
  }

  /** Sign, whole part, optional point and fraction, exponent part. */
  ghost predicate FloatCut(s: string, sign: string, w: string, point: bool, f: string, x: string) {
    && s == sign + (w + ((if point then "." + f else "") + x))
    && IsSign(sign) && Part(w) && Part(f) && (point || f == "") && (w != "" || f != "")
  }

  ghost predicate FloatMatch(s: string, d: Param) {
    exists sign, w, point, f, x, e ::
      FloatCut(s, sign, w, point, f, x) && ExpMatch(x, e) && AllIn(Plain(w) + Plain(f), Digit)
      && d == Normalize(sign == "-", Value(Plain(w) + Plain(f)), e - |Plain(f)|)
  }

  lemma PlainPart(s: string)
    requires Part(s)
    ensures AllIn(Plain(s), Digit) && (Plain(s) == "" <==> s == "")
  {
    if s != "" { PlainDigits(s); }
  }

  lemma FractionCut(s: string) returns (point: bool, f: string)
    ensures var (ds, rest) := FractionPart(s);
      s == (if point then "." + f else "") + rest && Part(f) && (point || f == "") && ds == Plain(f)
  {
    point := s != "" && s[0] == '.';
    f := "";
    if point {
      f := DigitPartCut(s[1..]);
      assert s == "." + s[1..];
      hide DigitPart, Grouped;
    }
  }

  /** The three parts an unsigned number was read from. */
  lemma UnsignedFrom(neg: bool, s: string)
    requires Unsigned(neg, s).Some?
    ensures var (whole, s1) := DigitPart(s); var (frac, x) := FractionPart(s1);
      && whole + frac != "" && ExpPart(x).Some? && AllIn(whole + frac, Digit)
      && Unsigned(neg, s).value == Normalize(neg, Value(whole + frac), ExpPart(x).value - |frac|)
  {
    DigitPartIn(s);
    FractionPartIn(DigitPart(s).1);
    hide DigitPart, FractionPart, ExpPart, Value, Normalize;
  }

  lemma FloatSound(text: string)
    requires ParseFloat(text).Some?
    ensures FloatMatch(Strip(text), ParseFloat(text).value)
  {
    var s := Strip(text);
    hide Strip, Unsigned, DigitPart, FractionPart, ExpPart, SignPart, Normalize, Value, Grouped, ExpMatch, Plain;
    var sign := SignCut(s);
    var (neg, body) := SignPart(s);
    UnsignedFrom(neg, body);
    var w := DigitPartCut(body);
    var (whole, s1) := DigitPart(body);
    var point, f := FractionCut(s1);
    var (frac, x) := FractionPart(s1);
    ExpExact(x, ExpPart(x).value);
    assert Plain("") == "" by { EmptyPlain(); }
    PlainPart(w);
    PlainPart(f);
    FloatIs(s, sign, w, point, f, x, ExpPart(x).value, ParseFloat(text).value);
  }

  lemma EmptyPlain()
    ensures Plain("") == ""
  {
  }

  lemma FloatIs(s: string, sign: string, w: string, point: bool, f: string, x: string, e: int, d: Param)
    requires s == sign + (w + ((if point then "." + f else "") + x))
    requires IsSign(sign) && Part(w) && Part(f) && (point || f == "") && (w != "" || f != "")
    requires ExpMatch(x, e) && AllIn(Plain(w) + Plain(f), Digit)
    requires d == Normalize(sign == "-", Value(Plain(w) + Plain(f)), e - |Plain(f)|)
    ensures FloatMatch(s, d)
  {
    hide Normalize, Value, Part, ExpMatch, Plain, AllIn, IsSign;
    assert FloatCut(s, sign, w, point, f, x);
  }

  lemma ExpStarts(x: string, e: int)
    requires ExpMatch(x, e)
    ensures x == "" || x[0] == 'e' || x[0] == 'E'
  {
    if x != "" { var c, sign, ds :| ExpCut(x, c, sign, ds) && AllIn(Plain(ds), Digit) && e == Signed(sign, Plain(ds)); }
  }

  /** A part, or no part, before something that cannot continue it. */
  lemma PartFound(w: string, rest: string)
    requires Part(w) && Ends(rest)
    ensures DigitPart(w + rest) == (Plain(w), rest)
  {
    if w == "" { assert w + rest == rest; } else { DigitPartFound(w, rest); }
  }

  lemma FractionFound(point: bool, f: string, x: string)
    requires Part(f) && (point || f == "") && Ends(x) && (x == "" || x[0] != '.')
    ensures var s1 := (if point then "." + f else "") + x;
      FractionPart(s1) == (Plain(f), x) && Ends(s1) && (s1 == "" || s1[0] == '.' || s1 == x)
  {
    PartFound(f, x);
    if point { assert (("." + f) + x)[1..] == f + x; } else { assert "" + x == x; }
  }

  lemma FloatFound(sign: string, w: string, point: bool, f: string, x: string, e: int)
    requires IsSign(sign) && Part(w) && Part(f) && (point || f == "") && (w != "" || f != "") && ExpMatch(x, e)
    ensures AllIn(Plain(w) + Plain(f), Digit)
    ensures var s1 := (if point then "." + f else "") + x;
      SignPart(sign + (w + s1)) == (sign == "-", w + s1)
      && Unsigned(sign == "-", w + s1) == Some(Normalize(sign == "-", Value(Plain(w) + Plain(f)), e - |Plain(f)|))
  {
    var s1 := (if point then "." + f else "") + x;
    hide DigitPart, FractionPart, ExpPart, Normalize, Value, Grouped, ExpMatch, Plain, SignPart, Unsigned;
    ExpStarts(x, e);
    FractionFound(point, f, x);
    PartFound(w, s1);
    PlainPart(w);
    PlainPart(f);
    ExpExact(x, e);
    FirstOfBody(w, s1);
    SignFound(sign, w + s1);
    UnsignedOf(sign == "-", w + s1, Plain(w), s1, Plain(f), x, e);
  }

  lemma FirstOfBody(w: string, s1: string)
    requires Part(w) && (s1 == "" || s1[0] == '.' || s1[0] == 'e' || s1[0] == 'E')
    ensures w + s1 == "" || ((w + s1)[0] != '-' && (w + s1)[0] != '+')
  {
    if w == "" { assert w + s1 == s1; } else { assert IsDigit(w[0]) && (w + s1)[0] == w[0]; }
  }

  lemma UnsignedOf(neg: bool, s: string, whole: string, s1: string, frac: string, x: string, e: int)
    requires DigitPart(s) == (whole, s1) && FractionPart(s1) == (frac, x) && ExpPart(x) == Some(e) && whole + frac != ""
    ensures AllIn(whole + frac, Digit) && Unsigned(neg, s) == Some(Normalize(neg, Value(whole + frac), e - |frac|))
  {
    DigitPartIn(s);
    FractionPartIn(s1);
    hide DigitPart, FractionPart, ExpPart, Value, Normalize;
  }

  /** `float()` reads a text if and only if it has this form, and reads it as this number. */
  lemma FloatExact(text: string, d: Param)
    ensures ParseFloat(text) == Some(d) <==> FloatMatch(Strip(text), d)
  {
    hide Unsigned, SignPart, Normalize, Value, Plain, ExpMatch, Part, Strip, ParseFloat;
    if ParseFloat(text) == Some(d) { FloatSound(text); }
    if FloatMatch(Strip(text), d) { FloatComplete(text, d); }
  }

  lemma FloatComplete(text: string, d: Param)
    requires FloatMatch(Strip(text), d)
    ensures ParseFloat(text) == Some(d)
  {
    hide Unsigned, SignPart, Normalize, Value, Plain, ExpMatch, Part, Strip;
    var sign, w, point, f, x, e :|
      FloatCut(Strip(text), sign, w, point, f, x) && ExpMatch(x, e) && AllIn(Plain(w) + Plain(f), Digit)
      && d == Normalize(sign == "-", Value(Plain(w) + Plain(f)), e - |Plain(f)|);
    FloatFound(sign, w, point, f, x, e);
  }
}
