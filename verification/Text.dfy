/** ASCII text: character classes, the scanners the line patterns are made of,
    stripping, line splitting and unsigned decimal numerals. */
module Text {
  import opened Options

  predicate IsDigit(c: char) { '0' <= c <= '9' }

  predicate IsWord(c: char) { IsDigit(c) || 'a' <= c <= 'z' || 'A' <= c <= 'Z' || c == '_' }

  /** `\s` and `str.strip`: tab to carriage return, the four separators, blank. */
  predicate IsSpace(c: char) { 9 <= c as int <= 13 || 28 <= c as int <= 32 }

  /** Where `str.splitlines` splits. */
  predicate IsBreak(c: char) { 10 <= c as int <= 13 || 28 <= c as int <= 30 }

  /** The character classes that occur under `+` or `*` in the line patterns. */
  datatype Class = Space | Digit | Word | Version | NotQuote | NotClose | NotBreak | NotComma

  predicate In(c: char, k: Class) {
    match k
    case Space => IsSpace(c)
    case Digit => IsDigit(c)
    case Word => IsWord(c)
    case Version => IsDigit(c) || c == '.'
    case NotQuote => c != '"'
    case NotClose => c != ')'
    case NotBreak => !IsBreak(c)
    case NotComma => c != ','
  }

  /** Length of the longest prefix in the class. */
  function Span(s: string, k: Class): (n: nat)
    ensures n <= |s| && AllIn(s[..n], k)
  {
    if s != "" && In(s[0], k) then 1 + Span(s[1..], k) else 0
  }

  /** Greedy `X*`: what is left. */
  function Skip(s: string, k: Class): string { s[Span(s, k)..] }

  /** Greedy `X+`: the match and what is left. */
  function Some1(s: string, k: Class): (r: Option<(string, string)>)
    ensures r.Some? ==> AllIn(r.value.0, k)
  {
    var n := Span(s, k);
    if n == 0 then None else Some((s[..n], s[n..]))
  }

  function Lit(s: string, lit: string): Option<string> {
    if lit <= s then Some(s[|lit|..]) else None
  }

  ghost predicate AllIn(s: string, k: Class) { forall i :: 0 <= i < |s| ==> In(s[i], k) }

  /** The class run ends here. */
  ghost predicate Stops(s: string, k: Class) { s == "" || !In(s[0], k) }

  lemma {:induction false} SpanIs(a: string, b: string, k: Class)
    requires AllIn(a, k) && Stops(b, k)
    ensures Span(a + b, k) == |a|
  {
    if a == "" {
      assert a + b == b;
    } else {
      assert (a + b)[1..] == a[1..] + b;
      SpanIs(a[1..], b, k);
    }
  }

  lemma Some1Is(a: string, b: string, k: Class)
    requires a != "" && AllIn(a, k) && Stops(b, k)
    ensures Some1(a + b, k) == Some((a, b))
  {
    SpanIs(a, b, k);
  }

  lemma SkipNone(s: string, k: Class)
    requires Stops(s, k)
    ensures Skip(s, k) == s && Some1(s, k) == None
  {
  }

  lemma SkipOne(c: char, s: string, k: Class)
    requires In(c, k) && Stops(s, k)
    ensures Some1([c] + s, k) == Some(([c], s)) && Skip([c] + s, k) == s
  {
    SpanIs([c], s, k);
  }

  lemma LitIs(lit: string, s: string)
    ensures Lit(lit + s, lit) == Some(s)
  {
  }

  lemma LitNot(s: string, lit: string, i: nat)
    requires i < |lit| && i < |s| && lit[i] != s[i]
    ensures Lit(s, lit) == None
  {
  }

  // ---- stripping and splitting ----

  function StripEnd(s: string): string {
    if s != "" && IsSpace(s[|s| - 1]) then StripEnd(s[..|s| - 1]) else s
  }

  function Strip(s: string): string { StripEnd(Skip(s, Space)) }

  /** Neither end is a space. */
  ghost predicate Trim(s: string) { s != "" && !IsSpace(s[0]) && !IsSpace(s[|s| - 1]) }

  lemma StripIs(s: string)
    requires Trim(s)
    ensures Strip(s) == s && Strip(s + "\n") == s
  {
    SkipNone(s, Space);
    SkipNone(s + "\n", Space);
    hide Skip;
    assert (s + "\n")[..|s|] == s && (s + "\n")[|s|] == '\n';
  }

  function SplitLines(s: string): seq<string>
    decreases |s|
  {
    if s == "" then []
    else
      var n := Span(s, NotBreak);
      if n == |s| then [s]
      else if s[n] == '\r' && n + 1 < |s| && s[n + 1] == '\n' then [s[..n]] + SplitLines(s[n + 2..])
      else [s[..n]] + SplitLines(s[n + 1..])
  }

  function Join(lines: seq<string>): string
    requires lines != []
  {
    if |lines| == 1 then lines[0] else lines[0] + "\n" + Join(lines[1..])
  }

  /** One line, and what is left after its newline. */
  lemma SplitFirst(first: string, rest: string)
    requires AllIn(first, NotBreak)
    ensures SplitLines(first + ("\n" + rest)) == [first] + SplitLines(rest)
    ensures first != "" ==> SplitLines(first) == [first]
  {
    SpanIs(first, "\n" + rest, NotBreak);
    SpanIs(first, "", NotBreak);
    assert first + "" == first;
    hide Span;
    var s := first + ("\n" + rest);
    assert s[|first|] == '\n' && s[..|first|] == first && s[|first| + 1..] == rest;
  }

  lemma {:induction false} SplitJoin(lines: seq<string>)
    requires lines != []
    requires forall i :: 0 <= i < |lines| ==> lines[i] != "" && AllIn(lines[i], NotBreak)
    ensures SplitLines(Join(lines)) == lines && Join(lines) != ""
  {
    hide SplitLines, AllIn;
    var first := lines[0];
    if |lines| == 1 {
      SplitFirst(first, "");
    } else {
      SplitJoin(lines[1..]);
      SplitFirst(first, Join(lines[1..]));
      assert first + ("\n" + Join(lines[1..])) == Join(lines);
    }
  }

  lemma {:induction false} JoinEnds(lines: seq<string>)
    requires lines != [] && forall i :: 0 <= i < |lines| ==> Trim(lines[i])
    ensures Trim(Join(lines))
  {
    if |lines| > 1 { JoinEnds(lines[1..]); }
  }

  // ---- numerals ----

  function DigitChar(d: nat): char
    requires d < 10
  {
    ('0' as int + d) as char
  }

  function DigitValue(c: char): nat
    requires IsDigit(c)
  {
    c as int - '0' as int
  }

  function Pow10(k: nat): (p: nat)
    ensures p >= 1
  {
    if k == 0 then 1 else 10 * Pow10(k - 1)
  }

  /** Decimal numeral without leading zeros. */
  function Digits(n: nat): (s: string)
    ensures s != "" && AllIn(s, Digit)
  {
    if n < 10 then [DigitChar(n)] else Digits(n / 10) + [DigitChar(n % 10)]
  }

  /** The number a string of digits denotes; leading zeros are allowed. */
  function Value(s: string): nat
    requires AllIn(s, Digit)
  {
    if s == "" then 0 else 10 * Value(s[..|s| - 1]) + DigitValue(s[|s| - 1])
  }

  lemma {:induction false} ValueDigits(n: nat)
    ensures Value(Digits(n)) == n
  {
    if n >= 10 {
      ValueDigits(n / 10);
      assert (Digits(n / 10) + [DigitChar(n % 10)])[..|Digits(n)| - 1] == Digits(n / 10);
    } else {
      assert Digits(n)[..0] == "";
    }
  }

  lemma {:induction false} DigitsBound(n: nat)
    ensures n < Pow10(|Digits(n)|)
    ensures n >= 1 ==> Pow10(|Digits(n)| - 1) <= n
  {
    if n >= 10 { DigitsBound(n / 10); }
  }

  lemma {:induction false} FirstDigit(n: nat)
    requires n >= 1
    ensures Digits(n)[0] != '0'
  {
    if n >= 10 { FirstDigit(n / 10); }
  }

  lemma {:induction false} ValueConcat(a: string, b: string)
    requires AllIn(a, Digit) && AllIn(b, Digit)
    ensures AllIn(a + b, Digit) && Value(a + b) == Value(a) * Pow10(|b|) + Value(b)
  {
    if b == "" {
      assert a + b == a;
    } else {
      var b1 := b[..|b| - 1];
      ValueConcat(a, b1);
      assert (a + b)[..|a + b| - 1] == a + b1;
      assert Value(a) * Pow10(|b|) == 10 * (Value(a) * Pow10(|b1|)) by { MulSwap(Value(a), Pow10(|b1|)); }
    }
  }

  lemma MulSwap(x: nat, y: nat)
    ensures x * (10 * y) == 10 * (x * y)
  {
  }

  function Zeros(k: nat): (s: string)
    ensures |s| == k && AllIn(s, Digit)
  {
    seq(k, _ => '0')
  }

  lemma {:induction false} ValueZeros(k: nat)
    ensures Value(Zeros(k)) == 0
  {
    if k > 0 {
      assert Zeros(k)[..k - 1] == Zeros(k - 1);
      ValueZeros(k - 1);
    }
  }
}
