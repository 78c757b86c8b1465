/** Gate parameters as finite decimals: `_format_float` (15 significant digits in
    `%g` notation) and Python's `float()` on text, which undo each other. */
module Decimals {
  import opened Options
  import opened Text

  /** (-1)^neg * mant * 10^exp. */
  datatype Decimal = Decimal(neg: bool, mant: nat, exp: int)

  /** One representation per value (and one per signed zero). */
  predicate Canonical(d: Decimal) {
    if d.mant == 0 then d.exp == 0 else d.mant % 10 != 0
  }

  type Param = d: Decimal | Canonical(d) witness Decimal(false, 0, 0)

  function Normalize(neg: bool, mant: nat, exp: int): (d: Param)
    ensures d.mant <= mant
    decreases mant
  {
    if mant == 0 then Decimal(neg, 0, 0)
    else if mant % 10 == 0 then Normalize(neg, mant / 10, exp + 1)
    else Decimal(neg, mant, exp)
  }

  const ZERO_PARAM: Param := Decimal(false, 0, 0)

  const SIGNIFICANT: nat := 15

  // ---- rounding to 15 significant digits, half to even ----

  function RoundHalfEven(n: nat, unit: nat): (q: nat)
    requires unit >= 1
    ensures n / unit <= q <= n / unit + 1
  {
    var q := n / unit;
    var r := n % unit;
    if 2 * r > unit || (2 * r == unit && q % 2 == 1) then q + 1 else q
  }

  function Round15(d: Param): Param {
    var n := |Digits(d.mant)|;
    if n <= SIGNIFICANT then d
    else Normalize(d.neg, RoundHalfEven(d.mant, Pow10(n - SIGNIFICANT)), d.exp + (n - SIGNIFICANT))
  }

  ghost predicate Short(d: Param) { |Digits(d.mant)| <= 15 }

  lemma {:induction false} PowAdd(j: nat, k: nat)
    ensures Pow10(j + k) == Pow10(j) * Pow10(k)
    decreases k
  {
    if k > 0 {
      PowAdd(j, k - 1);
      MulSwap(Pow10(j), Pow10(k - 1));
    }
  }

  lemma {:induction false} PowMonotone(j: nat, k: nat)
    requires j <= k
    ensures Pow10(j) <= Pow10(k)
    decreases k
  {
    if j < k { PowMonotone(j, k - 1); }
  }

  lemma PowOrder(j: nat, k: nat)
    requires Pow10(j) < Pow10(k)
    ensures j < k
  {
    if j >= k { PowMonotone(k, j); }
  }

  lemma DigitsShort(n: nat, k: nat)
    requires k >= 1 && n < Pow10(k)
    ensures |Digits(n)| <= k
  {
    if n >= 1 {
      DigitsBound(n);
      PowOrder(|Digits(n)| - 1, k);
    }
  }

  lemma DivBelow(n: nat, p: nat, q: nat)
    requires p >= 1 && n < p * q
    ensures n / p < q
  {
    assert n == n / p * p + n % p;
    if n / p >= q { MulLe(q, n / p, p); }
  }

  lemma MulLe(a: nat, b: nat, c: nat)
    requires a <= b
    ensures a * c <= b * c
  {
  }

  /** Ten to the k normalises to a single digit. */
  lemma {:induction false} NormalizePow(neg: bool, k: nat, exp: int)
    ensures Normalize(neg, Pow10(k), exp) == Decimal(neg, 1, exp + k)
    decreases k
  {
    if k > 0 {
      assert Pow10(k) % 10 == 0 && Pow10(k) / 10 == Pow10(k - 1);
      NormalizePow(neg, k - 1, exp + 1);
    }
  }

  lemma RoundBelow(n: nat, k: nat, m: nat)
    requires n < Pow10(k + m)
    ensures RoundHalfEven(n, Pow10(k)) <= Pow10(m)
  {
    PowAdd(k, m);
    hide Pow10, RoundHalfEven;
    DivBelow(n, Pow10(k), Pow10(m));
  }

  lemma RoundBound(n: nat)
    requires |Digits(n)| > SIGNIFICANT
    ensures RoundHalfEven(n, Pow10(|Digits(n)| - SIGNIFICANT)) <= Pow10(SIGNIFICANT)
  {
    hide Pow10, Digits, RoundHalfEven;
    DigitsBound(n);
    RoundBelow(n, |Digits(n)| - SIGNIFICANT, SIGNIFICANT);
  }

  lemma NormalizeShort(neg: bool, q: nat, exp: int)
    requires q <= Pow10(SIGNIFICANT)
    ensures Short(Normalize(neg, q, exp))
  {
    hide Pow10;
    if q < Pow10(SIGNIFICANT) {
      DigitsShort(Normalize(neg, q, exp).mant, SIGNIFICANT);
    } else {
      NormalizePow(neg, SIGNIFICANT, exp);
    }
  }

  /** Rounding leaves at most 15 digits, so rounding again changes nothing. */
  lemma RoundShort(d: Param)
    ensures Short(Round15(d)) && Round15(Round15(d)) == Round15(d)
    ensures Short(d) ==> Round15(d) == d
  {
    hide Pow10, RoundHalfEven, Normalize, Digits;
    if |Digits(d.mant)| > SIGNIFICANT {
      RoundBound(d.mant);
      var k := |Digits(d.mant)| - SIGNIFICANT;
      NormalizeShort(d.neg, RoundHalfEven(d.mant, Pow10(k)), d.exp + k);
    }
  }

  // ---- `%g` notation ----

  function Sign(neg: bool): string { if neg then "-" else "" }

  /** At least two digits. */
  function Padded(n: nat): string { (if n < 10 then "0" else "") + Digits(n) }

  /** The exponent of scientific notation. */
  function ExpText(x: int): string {
    (if x < 0 then "-" else "+") + Padded(if x < 0 then -x else x)
  }

  /** The magnitude, from its digits and the power of ten of the first one. */
  function Magnitude(ds: string, exp: int): string
    requires ds != ""
  {
    var x := |ds| - 1 + exp;
    if -4 <= x < SIGNIFICANT then
      if exp >= 0 then ds + Zeros(exp)
      else if x >= 0 then ds[..x + 1] + "." + ds[x + 1..]
      else "0." + Zeros(-x - 1) + ds
    else ds[..1] + (if |ds| > 1 then "." + ds[1..] else "") + "e" + ExpText(x)
  }

  function Render(d: Param): string {
    Sign(d.neg) + (if d.mant == 0 then "0" else Magnitude(Digits(d.mant), d.exp))
  }

  /** `_format_float`. */
  function Format(d: Param): string {
    Render(Round15(d))
  }

  // ---- `float()` ----

  /** Digits with single underscores between them; the underscores are dropped. */
  function DigitPart(s: string): (string, string) {
    if s == "" || !IsDigit(s[0]) then ("", s)
    else if |s| >= 3 && s[1] == '_' && IsDigit(s[2]) then
      var (ds, rest) := DigitPart(s[2..]); ([s[0]] + ds, rest)
    else
      var (ds, rest) := DigitPart(s[1..]); ([s[0]] + ds, rest)
  }

  lemma {:induction false} DigitPartIn(s: string)
    ensures AllIn(DigitPart(s).0, Digit)
    decreases |s|
  {
    if s != "" && IsDigit(s[0]) {
      DigitPartIn(s[1..]);
      if |s| >= 3 { DigitPartIn(s[2..]); }
    }
  }

  function SignPart(s: string): (bool, string) {
    if s != "" && s[0] == '-' then (true, s[1..])
    else if s != "" && s[0] == '+' then (false, s[1..])
    else (false, s)
  }

  /** The exponent part, which must end the text. */
  function ExpPart(s: string): Option<int> {
    if s == "" then Some(0)
    else if s[0] != 'e' && s[0] != 'E' then None
    else
      var (neg, t) := SignPart(s[1..]);
      var (ds, rest) := DigitPart(t);
      DigitPartIn(t);
      if ds == "" || rest != "" then None
      else var n: int := Value(ds); Some(if neg then -n else n)
  }

  /** The digits after an optional point. */
  function FractionPart(s: string): (string, string) {
    if s != "" && s[0] == '.' then DigitPart(s[1..]) else ("", s)
  }

  lemma FractionPartIn(s: string)
    ensures AllIn(FractionPart(s).0, Digit)
  {
    if s != "" { DigitPartIn(s[1..]); }
  }

  function Unsigned(neg: bool, s: string): Option<Param> {
    var (whole, s1) := DigitPart(s);
    var (frac, s2) := FractionPart(s1);
    DigitPartIn(s);
    FractionPartIn(s1);
    if whole + frac == "" then None
    else
      var e :- ExpPart(s2);
      Some(Normalize(neg, Value(whole + frac), e - |frac|))
  }

  function ParseFloat(text: string): Option<Param> {
    var (neg, s) := SignPart(Strip(text));
    Unsigned(neg, s)
  }

  // ---- reading back what was printed ----

  /** A run of digits followed by something that is neither digit nor underscore. */
  lemma {:induction false} DigitPartIs(ds: string, rest: string)
    requires AllIn(ds, Digit) && (rest == "" || (!IsDigit(rest[0]) && rest[0] != '_'))
    ensures DigitPart(ds + rest) == (ds, rest)
    decreases |ds|
  {
    if ds == "" {
      assert ds + rest == rest;
    } else {
      var s := ds + rest;
      assert s[1..] == ds[1..] + rest && s[0] == ds[0];
      assert |s| >= 2 ==> s[1] != '_' by {
        if |ds| >= 2 { assert s[1] == ds[1]; }
      }
      DigitPartIs(ds[1..], rest);
      assert [ds[0]] + ds[1..] == ds;
    }
  }

  lemma NormalizeTen(neg: bool, n: nat, exp: int)
    ensures Normalize(neg, 10 * n, exp) == Normalize(neg, n, exp + 1)
  {
  }

  /** n followed by k zeros. */
  function Shifted(n: nat, k: nat): nat { if k == 0 then n else 10 * Shifted(n, k - 1) }

  lemma {:induction false} ShiftedIs(n: nat, k: nat)
    ensures Shifted(n, k) == n * Pow10(k)
    decreases k
  {
    if k > 0 {
      ShiftedIs(n, k - 1);
      MulSwap(n, Pow10(k - 1));
    }
  }

  lemma {:induction false} NormalizeShifted(neg: bool, mant: nat, exp: int, k: nat)
    ensures Normalize(neg, Shifted(mant, k), exp - k) == Normalize(neg, mant, exp)
    decreases k
  {
    if k > 0 {
      hide Normalize;
      NormalizeTen(neg, Shifted(mant, k - 1), exp - k);
      NormalizeShifted(neg, mant, exp, k - 1);
    }
  }

  lemma NormalizeScale(neg: bool, mant: nat, exp: int, k: nat)
    ensures Normalize(neg, mant * Pow10(k), exp - k) == Normalize(neg, mant, exp)
  {
    hide Normalize, Pow10, Shifted;
    ShiftedIs(mant, k);
    NormalizeShifted(neg, mant, exp, k);
  }

  lemma NormalizeCanonical(d: Param)
    ensures Normalize(d.neg, d.mant, d.exp) == d
  {
  }

  lemma CutDigits(n: nat, i: nat)
    requires i <= |Digits(n)|
    ensures AllIn(Digits(n)[..i], Digit) && AllIn(Digits(n)[i..], Digit) && Digits(n)[..i] + Digits(n)[i..] == Digits(n)
    ensures Value(Digits(n)[..i] + Digits(n)[i..]) == n
  {
    ValueDigits(n);
  }

  /** Leading zeros do not change the value. */
  lemma LeadingZeros(z: nat, n: nat)
    ensures AllIn(Zeros(z) + Digits(n), Digit) && Value(Zeros(z) + Digits(n)) == n
  {
    ValueConcat(Zeros(z), Digits(n));
    ValueZeros(z);
    ValueDigits(n);
  }

  lemma PaddedValue(n: nat)
    ensures AllIn(Padded(n), Digit) && Padded(n) != "" && Value(Padded(n)) == n
  {
    LeadingZeros(if n < 10 then 1 else 0, n);
    assert Padded(n) == Zeros(if n < 10 then 1 else 0) + Digits(n);
  }

  lemma SignPartIs(neg: bool, plus: string, body: string)
    requires body != "" && IsDigit(body[0]) && (neg ==> plus == "-") && (!neg ==> plus == "" || plus == "+")
    ensures SignPart(plus + body) == (neg, body)
  {
    if plus != "" { assert (plus + body)[1..] == body; } else { assert plus + body == body; }
  }

  lemma ExpPartReads(neg: bool, plus: string, ds: string)
    requires AllIn(ds, Digit) && ds != "" && plus == (if neg then "-" else "+")
    ensures ExpPart("e" + (plus + ds)) == Some(if neg then -(Value(ds) as int) else Value(ds))
  {
    assert IsDigit(ds[0]);
    SignPartIs(neg, plus, ds);
    DigitPartIs(ds, "");
    assert ds + "" == ds;
    assert ("e" + (plus + ds))[1..] == plus + ds;
    hide DigitPart, Value, AllIn, SignPart;
  }

  lemma ExpPartIs(x: int)
    ensures ExpPart("e" + ExpText(x)) == Some(x)
  {
    var n: nat := if x < 0 then -x else x;
    var plus := if x < 0 then "-" else "+";
    PaddedValue(n);
    hide Padded, ExpPart, Value, AllIn;
    ExpPartReads(x < 0, plus, Padded(n));
  }

  /** What `Unsigned` makes of the three parts of a number. */
  lemma UnsignedParts(neg: bool, s: string, whole: string, s1: string, frac: string, s2: string, e: int)
    requires DigitPart(s) == (whole, s1) && FractionPart(s1) == (frac, s2) && ExpPart(s2) == Some(e) && whole != ""
    ensures AllIn(whole + frac, Digit) && Unsigned(neg, s) == Some(Normalize(neg, Value(whole + frac), e - |frac|))
  {
    DigitPartIn(s);
    FractionPartIn(s1);
    hide DigitPart, FractionPart, ExpPart, Value, Normalize;
  }

  /** Digits, a point, digits and an exponent part. */
  lemma PointReads(neg: bool, whole: string, frac: string, tail: string, e: int)
    requires AllIn(whole, Digit) && AllIn(frac, Digit) && whole != ""
    requires (tail == "" || tail[0] == 'e') && ExpPart(tail) == Some(e)
    ensures AllIn(whole + frac, Digit)
    ensures Unsigned(neg, whole + "." + frac + tail) == Some(Normalize(neg, Value(whole + frac), e - |frac|))
  {
    hide ExpPart, DigitPart, Normalize, Value, Unsigned;
    var s1 := "." + (frac + tail);
    assert whole + "." + frac + tail == whole + s1;
    DigitPartIs(whole, s1);
    assert s1[1..] == frac + tail;
    DigitPartIs(frac, tail);
    UnsignedParts(neg, whole + s1, whole, s1, frac, tail, e);
  }

  /** Digits and an exponent part. */
  lemma IntegerReads(neg: bool, whole: string, tail: string, e: int)
    requires AllIn(whole, Digit) && whole != ""
    requires (tail == "" || tail[0] == 'e') && ExpPart(tail) == Some(e)
    ensures Unsigned(neg, whole + tail) == Some(Normalize(neg, Value(whole), e))
  {
    hide ExpPart, DigitPart, Normalize, Value, Unsigned;
    DigitPartIs(whole, tail);
    UnsignedParts(neg, whole + tail, whole, tail, "", tail, e);
    assert whole + "" == whole;
  }

  lemma MagnitudeReads(neg: bool, mant: nat, exp: int)
    requires mant >= 1
    ensures Unsigned(neg, Magnitude(Digits(mant), exp)) == Some(Normalize(neg, mant, exp))
  {
    var x := |Digits(mant)| - 1 + exp;
    hide Unsigned, Normalize, Digits, ExpText;
    if -4 <= x < SIGNIFICANT {
      if exp >= 0 { WholeReads(neg, mant, exp); }
      else if x >= 0 { MiddleReads(neg, mant, exp); }
      else { SmallReads(neg, mant, exp); }
    } else { ScientificReads(neg, mant, exp); }
  }

  /** 12.34 reads back as 1234 * 10^-2. */
  lemma MiddleReads(neg: bool, mant: nat, exp: int)
    requires exp < 0 <= |Digits(mant)| - 1 + exp
    ensures var (ds, x) := (Digits(mant), |Digits(mant)| - 1 + exp);
      Unsigned(neg, ds[..x + 1] + "." + ds[x + 1..]) == Some(Normalize(neg, mant, exp))
  {
    var (ds, x) := (Digits(mant), |Digits(mant)| - 1 + exp);
    CutDigits(mant, x + 1);
    assert ExpPart("") == Some(0);
    hide Unsigned, Normalize, Digits, Value, ExpPart, AllIn;
    var (a, b) := (ds[..x + 1], ds[x + 1..]);
    PointReads(neg, a, b, "", 0);
    assert a + "." + b + "" == a + "." + b;
  }

  /** 1.234e+20 reads back as 1234 * 10^17. */
  lemma ScientificReads(neg: bool, mant: nat, exp: int)
    ensures var (ds, x) := (Digits(mant), |Digits(mant)| - 1 + exp);
      Unsigned(neg, ds[..1] + (if |ds| > 1 then "." + ds[1..] else "") + "e" + ExpText(x))
        == Some(Normalize(neg, mant, exp))
  {
    var (ds, x) := (Digits(mant), |Digits(mant)| - 1 + exp);
    CutDigits(mant, 1);
    ExpPartIs(x);
    hide Unsigned, Normalize, Digits, Value, ExpPart, ExpText, AllIn;
    var (a, b) := (ds[..1], ds[1..]);
    assert |b| == |ds| - 1;
    ExponentReads(neg, a, b, ExpText(x), x);
  }

  lemma ExponentReads(neg: bool, a: string, b: string, text: string, x: int)
    requires a != "" && AllIn(a, Digit) && AllIn(b, Digit) && ExpPart("e" + text) == Some(x)
    ensures AllIn(a + b, Digit)
    ensures Unsigned(neg, a + (if b != "" then "." + b else "") + "e" + text)
      == Some(Normalize(neg, Value(a + b), x - |b|))
  {
    assert AllIn(a + b, Digit);
    hide Unsigned, Normalize, Value, ExpPart, AllIn;
    var tail := "e" + text;
    if b != "" {
      PointReads(neg, a, b, tail, x);
      assert a + "." + b + tail == a + ("." + b) + "e" + text;
    } else {
      assert a + b == a;
      IntegerReads(neg, a, tail, x);
      assert a + tail == a + "" + "e" + text;
    }
  }

  /** 1200 reads back as 12 * 10^2. */
  lemma WholeReads(neg: bool, mant: nat, exp: nat)
    ensures Unsigned(neg, Digits(mant) + Zeros(exp)) == Some(Normalize(neg, mant, exp))
  {
    var s := Digits(mant) + Zeros(exp);
    assert ExpPart("") == Some(0);
    hide Unsigned, Normalize, Digits, Value, ExpPart, Zeros, Pow10;
    WholeValue(mant, exp);
    NormalizeScale(neg, mant, exp, exp);
    assert s + "" == s;
    IntegerReads(neg, s, "", 0);
  }

  lemma WholeValue(mant: nat, exp: nat)
    ensures var s := Digits(mant) + Zeros(exp); AllIn(s, Digit) && Value(s) == mant * Pow10(exp)
  {
    hide Value, Digits, Zeros, Pow10;
    ValueDigits(mant);
    ValueConcat(Digits(mant), Zeros(exp));
    ValueZeros(exp);
  }

  lemma SmallFraction(k: nat, mant: nat)
    ensures var frac := Zeros(k) + Digits(mant);
      AllIn(frac, Digit) && AllIn("0" + frac, Digit) && Value("0" + frac) == mant
  {
    LeadingZeros(k, mant);
    LeadingZeros(k + 1, mant);
    assert "0" + (Zeros(k) + Digits(mant)) == Zeros(k + 1) + Digits(mant);
    hide Value, Digits;
  }

  /** 0.0012 reads back as 12 * 10^-4. */
  lemma SmallReads(neg: bool, mant: nat, exp: int)
    requires |Digits(mant)| - 1 + exp < 0
    ensures Unsigned(neg, "0." + Zeros(-(|Digits(mant)| - 1 + exp) - 1) + Digits(mant))
      == Some(Normalize(neg, mant, exp))
  {
    var k := -(|Digits(mant)| - 1 + exp) - 1;
    var frac := Zeros(k) + Digits(mant);
    SmallFraction(k, mant);
    assert ExpPart("") == Some(0) && AllIn("0", Digit);
    hide Unsigned, Normalize, Digits, Value, ExpPart, Zeros, AllIn;
    PointReads(neg, "0", frac, "", 0);
    assert "0" + "." + frac + "" == "0." + Zeros(k) + Digits(mant);
  }

  /** Printed numbers neither start nor end with a space. */
  lemma RenderTrim(d: Param)
    ensures Trim(Render(d))
    ensures d.mant == 0 || d.neg || IsDigit(Render(d)[0])
    ensures d.neg ==> Render(d)[0] == '-'
  {
    if d.mant != 0 { MagnitudeTrim(Digits(d.mant), d.exp); }
  }

  lemma MagnitudeTrim(ds: string, exp: int)
    requires ds != "" && AllIn(ds, Digit)
    ensures var t := Magnitude(ds, exp); t != "" && IsDigit(t[0]) && IsDigit(t[|t| - 1])
  {
  }

  lemma BodyReads(d: Param)
    ensures var body := if d.mant == 0 then "0" else Magnitude(Digits(d.mant), d.exp);
      Unsigned(d.neg, body) == Some(d) && body != "" && IsDigit(body[0])
  {
    NormalizeCanonical(d);
    if d.mant == 0 {
      assert "0"[..0] == "" && Value("0") == 0 && ExpPart("") == Some(0);
      IntegerReads(d.neg, "0", "", 0);
      assert "0" + "" == "0";
    } else {
      MagnitudeReads(d.neg, d.mant, d.exp);
      MagnitudeTrim(Digits(d.mant), d.exp);
    }
    hide Unsigned, Magnitude, Digits, ExpPart;
  }

  /** Reading a printed decimal gives it back. */
  lemma ParseRender(d: Param)
    ensures ParseFloat(Render(d)) == Some(d)
  {
    RenderTrim(d);
    StripIs(Render(d));
    BodyReads(d);
    hide Unsigned, Magnitude, Digits, Strip, SignPart;
    SignPartIs(d.neg, Sign(d.neg), if d.mant == 0 then "0" else Magnitude(Digits(d.mant), d.exp));
  }

  /** So `float(_format_float(p))` is `p` rounded to 15 significant digits. */
  lemma ParseFormat(d: Param)
    ensures ParseFloat(Format(d)) == Some(Round15(d))
    ensures Short(d) ==> ParseFloat(Format(d)) == Some(d)
  {
    ParseRender(Round15(d));
    RoundShort(d);
  }
}
