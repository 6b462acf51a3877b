/** Amount strings as the forms handle them: the `^\d*\.?\d*$` input filter, the
    reading of such a string by `Number`/`parseFloat`, and the writing of a number back
    with `toString`. Numbers are exact decimals here (no binary floating point). */
module DecimalText {
  import opened JsValues

  predicate IsDigit(c: char) {
    '0' <= c <= '9'
  }

  predicate AllDigits(s: string) {
    forall i | 0 <= i < |s| :: IsDigit(s[i])
  }

  function DigitOf(c: char): (d: nat)
    requires IsDigit(c)
    ensures d < 10
  {
    c as int - '0' as int
  }

  function DigitChar(d: nat): (c: char)
    requires d < 10
    ensures IsDigit(c) && DigitOf(c) == d
  {
    ('0' as int + d) as char
  }

  // ---------------------------------------------------------------------------
  // The input filter

  /** The regular expression `^\d*\.?\d*$` read as an automaton: digits, then
      at most one '.', then digits only. */
  predicate MatchesAmountPattern(s: string)
    decreases |s|
  {
    s == [] || (IsDigit(s[0]) && MatchesAmountPattern(s[1..])) || (s[0] == '.' && AllDigits(s[1..]))
  }

  /** An independent reading of the same filter: only digits and dots, never two dots. */
  predicate DigitsWithAtMostOneDot(s: string) {
    && (forall i | 0 <= i < |s| :: IsDigit(s[i]) || s[i] == '.')
    && (forall i, j | 0 <= i < j < |s| :: !(s[i] == '.' && s[j] == '.'))
  }

  /** `value === "" || /^\d*\.?\d*$/.test(value)`, the guard of every amount input:
      it lets through exactly the texts of digits and dots with at most one dot. */
  predicate AcceptsInput(value: string)
    ensures AcceptsInput(value) <==> DigitsWithAtMostOneDot(value)
  {
    PatternIsDigitsWithAtMostOneDot(value);
    value == "" || MatchesAmountPattern(value)
  }

  lemma {:induction false} PatternIsDigitsWithAtMostOneDot(s: string)
    ensures MatchesAmountPattern(s) <==> DigitsWithAtMostOneDot(s)
    decreases |s|
  {
    if s != [] {
      var t := s[1..];
      assert forall i | 0 <= i < |t| :: t[i] == s[i + 1];
      if IsDigit(s[0]) {
        PatternIsDigitsWithAtMostOneDot(t);
        if DigitsWithAtMostOneDot(t) {
          forall i, j | 0 <= i < j < |s| ensures !(s[i] == '.' && s[j] == '.') {
            if i > 0 { assert s[i] == t[i - 1] && s[j] == t[j - 1]; }
          }
        }
        if DigitsWithAtMostOneDot(s) {
          forall i, j | 0 <= i < j < |t| ensures !(t[i] == '.' && t[j] == '.') {
            assert t[i] == s[i + 1] && t[j] == s[j + 1];
          }
        }
      } else if s[0] == '.' {
        if DigitsWithAtMostOneDot(s) {
          forall i | 0 <= i < |t| ensures IsDigit(t[i]) {
            assert !(s[0] == '.' && s[i + 1] == '.');
          }
        }
      } else {
        assert !DigitsWithAtMostOneDot(s) by { assert !(IsDigit(s[0]) || s[0] == '.'); }
      }
    }
  }

  lemma {:induction false} AllDigitsMatchPattern(s: string)
    requires AllDigits(s)
    ensures MatchesAmountPattern(s)
    decreases |s|
  {
    if s != [] {
      AllDigitsMatchPattern(s[1..]);
    }
  }

  lemma {:induction false} DigitsDotDigitsMatchPattern(p: string, q: string)
    requires AllDigits(p) && AllDigits(q)
    ensures MatchesAmountPattern(p + "." + q)
    decreases |p|
  {
    if p == [] {
      assert (p + "." + q)[1..] == q;
    } else {
      assert (p + "." + q)[1..] == p[1..] + "." + q;
      DigitsDotDigitsMatchPattern(p[1..], q);
    }
  }

  // ---------------------------------------------------------------------------
  // Exact decimals

  /** The number `units / 10^scale`. */
  datatype Decimal = Decimal(units: nat, scale: nat)

  function Pow10(n: nat): (r: nat)
    ensures r > 0
  {
    if n == 0 then 1 else 10 * Pow10(n - 1)
  }

  function Value(d: Decimal): real {
    d.units as real / Pow10(d.scale) as real
  }

  /** `x * 2`, exactly. */
  function Double(d: Decimal): (r: Decimal)
    ensures Value(r) == 2.0 * Value(d)
  {
    Decimal(2 * d.units, d.scale)
  }

  /** `x / 2`, exactly: `u / 10^s / 2 == 5u / 10^(s+1)`. */
  function Half(d: Decimal): (r: Decimal)
    ensures Value(r) == Value(d) / 2.0
  {
    assert Pow10(d.scale + 1) as real == 10.0 * Pow10(d.scale) as real;
    FifthOfTenth(d.units as real, Pow10(d.scale) as real);
    Decimal(5 * d.units, d.scale + 1)
  }

  /** `5u / 10p == (u / p) / 2`, by multiplying both sides out. */
  lemma FifthOfTenth(u: real, p: real)
    requires p > 0.0
    ensures (5.0 * u) / (10.0 * p) == (u / p) / 2.0
  {
    var a := (5.0 * u) / (10.0 * p);
    var b := (u / p) / 2.0;
    assert a * (10.0 * p) == 5.0 * u;
    assert (u / p) * p == u;
    assert b * (10.0 * p) == 5.0 * ((u / p) * p);
  }

  // ---------------------------------------------------------------------------
  // Reading: Number(s) and parseFloat(s) on strings the filter accepts

  /** The number a string of digits denotes, read left to right. */
  function DigitsValue(s: string): nat
    requires AllDigits(s)
  {
    if s == [] then 0 else 10 * DigitsValue(s[..|s| - 1]) + DigitOf(s[|s| - 1])
  }

  /** Index of the first '.', or `|s|` when there is none. */
  function DotIndex(s: string): (k: nat)
    ensures k <= |s|
    ensures forall i | 0 <= i < k :: s[i] != '.'
    ensures k < |s| ==> s[k] == '.'
  {
    if s == [] || s[0] == '.' then 0 else 1 + DotIndex(s[1..])
  }

  lemma {:induction false} PatternSplit(s: string)
    requires MatchesAmountPattern(s)
    ensures AllDigits(s[..DotIndex(s)])
    ensures DotIndex(s) < |s| ==> AllDigits(s[DotIndex(s) + 1..])
    decreases |s|
  {
    if s != [] && s[0] != '.' {
      PatternSplit(s[1..]);
      assert s[..DotIndex(s)] == [s[0]] + s[1..][..DotIndex(s[1..])];
      if DotIndex(s) < |s| {
        assert s[DotIndex(s) + 1..] == s[1..][DotIndex(s[1..]) + 1..];
      }
    }
  }

  /** The fractional digits of an accepted string (empty when there is no dot). */
  function Fraction(s: string): string {
    if DotIndex(s) < |s| then s[DotIndex(s) + 1..] else []
  }

  /** `parseFloat(s)`, restricted to the strings the amount filter lets through: `Some`
      of the exact decimal they spell, `None` (NaN) for "" and ".". Outside the
      filter's language the model answers `None` as well, which is not what
      `parseFloat` does there: it reads a sign, an exponent or a numeric prefix
      ("-5", "1e3", "1abc"). `Number(s)` agrees with it on the filter's strings
      except on "" (where it gives 0), and "" never reaches a `Number` call in the
      forms. */
  function ParseDecimal(s: string): (r: Option<Decimal>)
    ensures r.Some? <==> MatchesAmountPattern(s) && s != "" && s != "."
    ensures r.Some? ==> r.value.scale == |Fraction(s)|
  {
    if MatchesAmountPattern(s) && s != "" && s != "." then
      PatternSplit(s);
      var digits := s[..DotIndex(s)] + Fraction(s);
      assert AllDigits(digits) by {
        assert forall i | 0 <= i < |digits| :: digits[i] == if i < DotIndex(s) then s[..DotIndex(s)][i] else Fraction(s)[i - DotIndex(s)];
      }
      Some(Decimal(DigitsValue(digits), |Fraction(s)|))
    else
      None
  }

  /** `parseFloat(s)` as a JavaScript number. */
  function ParseNumber(s: string): (n: JsNumber)
    ensures n.Some? <==> ParseDecimal(s).Some?
    ensures n.Some? ==> n.value == Value(ParseDecimal(s).value)
  {
    match ParseDecimal(s)
    case None => None
    case Some(d) => Some(Value(d))
  }

  /** The only non-empty string the filter accepts that does not denote a number is ".". */
  lemma AcceptedNaNIsLoneDot(s: string)
    requires AcceptsInput(s) && s != ""
    ensures ParseNumber(s).None? <==> s == "."
  {
  }

  /** Every value a digit string can spell is at least zero; none is negative. */
  lemma ParsedIsNonNegative(s: string)
    requires ParseNumber(s).Some?
    ensures ParseNumber(s).value >= 0.0
  {
  }

  // ---------------------------------------------------------------------------
  // Writing: Number.prototype.toString on exact decimals

  /** Drops trailing zeros of the fraction, keeping the value. */
  function Normalize(d: Decimal): (r: Decimal)
    ensures Value(r) == Value(d)
    ensures r.scale == 0 || r.units % 10 != 0
    decreases d.scale
  {
    if d.scale > 0 && d.units % 10 == 0 then
      var q := d.units / 10;
      var p := Pow10(d.scale - 1) as real;
      assert d.units as real == 10.0 * q as real;
      assert Pow10(d.scale) as real == 10.0 * p;
      assert Value(Decimal(q, d.scale - 1)) == Value(d);
      Normalize(Decimal(q, d.scale - 1))
    else
      d
  }

  /** The shortest decimal digits of `n` ("0" for zero). */
  function NatDigits(n: nat): (s: string)
    ensures |s| >= 1 && AllDigits(s) && DigitsValue(s) == n
  {
    if n < 10 then
      [DigitChar(n)]
    else
      var s := NatDigits(n / 10) + [DigitChar(n % 10)];
      assert s[..|s| - 1] == NatDigits(n / 10);
      s
  }

  function Zeros(k: nat): (z: string)
    ensures |z| == k && AllDigits(z)
  {
    seq(k, _ => '0')
  }

  /** `String(x)` for the decimal `x`: integer digits, and a '.' with the fraction
      digits only when the fraction is not zero. */
  function Format(d: Decimal): string {
    var n := Normalize(d);
    var digits := NatDigits(n.units);
    var len := |digits|;
    if n.scale == 0 then digits
    else if len > n.scale then digits[..len - n.scale] + "." + digits[len - n.scale..]
    else "0." + Zeros(n.scale - len) + digits
  }

  lemma {:induction false} LeadingZerosAddNothing(k: nat, s: string)
    requires AllDigits(s)
    ensures AllDigits(Zeros(k) + s) && DigitsValue(Zeros(k) + s) == DigitsValue(s)
    decreases |s|
  {
    var z := Zeros(k) + s;
    if s == [] {
      assert z == Zeros(k);
      ZerosValue(k);
    } else {
      var init := s[..|s| - 1];
      assert z[..|z| - 1] == Zeros(k) + init;
      LeadingZerosAddNothing(k, init);
    }
  }

  lemma {:induction false} ZerosValue(k: nat)
    ensures DigitsValue(Zeros(k)) == 0
    decreases k
  {
    if k > 0 {
      assert Zeros(k)[..k - 1] == Zeros(k - 1);
      ZerosValue(k - 1);
    }
  }

  lemma {:induction false} DotIndexAfterDigits(p: string, rest: string)
    requires AllDigits(p)
    ensures DotIndex(p + rest) == |p| + DotIndex(rest)
    decreases |p|
  {
    if p != [] {
      assert (p + rest)[1..] == p[1..] + rest;
      DotIndexAfterDigits(p[1..], rest);
    } else {
      assert p + rest == rest;
    }
  }

  lemma ParseDigits(p: string)
    requires AllDigits(p) && |p| >= 1
    ensures ParseDecimal(p) == Some(Decimal(DigitsValue(p), 0))
  {
    DotIndexAfterDigits(p, []);
    assert p + [] == p;
    AllDigitsMatchPattern(p);
    assert p != "." by { assert IsDigit(p[0]); }
    assert p[..DotIndex(p)] + Fraction(p) == p;
  }

  lemma ParseDigitsDotDigits(p: string, q: string)
    requires AllDigits(p) && AllDigits(q) && |p| >= 1
    ensures ParseDecimal(p + "." + q) == Some(Decimal(DigitsValue(p + q), |q|))
  {
    var s := p + "." + q;
    DotIndexAfterDigits(p, "." + q);
    assert s == p + ("." + q);
    assert DotIndex(s) == |p|;
    assert s[..|p|] == p;
    assert s[|p| + 1..] == q;
    DigitsDotDigitsMatchPattern(p, q);
    assert s != "." by { assert IsDigit(s[0]); }
  }

  /** Writing a number and reading it back gives the same number: `toString` output
      passes the amount filter and `parseFloat` returns the normalised decimal. */
  lemma FormatRoundTrip(d: Decimal)
    ensures MatchesAmountPattern(Format(d)) && Format(d) != "" && Format(d) != "."
    ensures ParseDecimal(Format(d)) == Some(Normalize(d))
    ensures ParseNumber(Format(d)) == Some(Value(d))
  {
    FormatParsesBack(d);
  }

  lemma FormatParsesBack(d: Decimal)
    ensures ParseDecimal(Format(d)) == Some(Normalize(d))
  {
    var n := Normalize(d);
    var digits := NatDigits(n.units);
    var len := |digits|;
    if n.scale == 0 {
      ParseDigits(digits);
    } else if len > n.scale {
      IntegerPartRoundTrip(n, digits);
    } else {
      LeadingZeroRoundTrip(n, digits);
    }
  }

  /** `toString` writes a '.' exactly when the number has a non-zero fraction. */
  lemma FormatHasDotExactlyForFractions(d: Decimal)
    ensures '.' in Format(d) <==> Normalize(d).scale > 0
  {
    var n := Normalize(d);
    var digits := NatDigits(n.units);
    assert '.' !in digits;
  }

  lemma IntegerPartRoundTrip(n: Decimal, digits: string)
    requires digits == NatDigits(n.units) && 0 < n.scale < |digits|
    ensures var s := digits[..|digits| - n.scale] + "." + digits[|digits| - n.scale..];
      ParseDecimal(s) == Some(n)
  {
    var p, q := digits[..|digits| - n.scale], digits[|digits| - n.scale..];
    assert p + q == digits;
    ParseDigitsDotDigits(p, q);
  }

  lemma LeadingZeroRoundTrip(n: Decimal, digits: string)
    requires digits == NatDigits(n.units) && 0 < n.scale && |digits| <= n.scale
    ensures ParseDecimal("0." + Zeros(n.scale - |digits|) + digits) == Some(n)
  {
    var k := n.scale - |digits|;
    var q := Zeros(k) + digits;
    ZeroPrefixAddsNothing(k, digits);
    assert |q| == n.scale;
    assert DigitsValue("0" + q) == n.units;
    assert "0." + Zeros(k) + digits == "0" + "." + q;
    ParseDigitsDotDigits("0", q);
  }

  lemma ZeroPrefixAddsNothing(k: nat, digits: string)
    requires AllDigits(digits)
    ensures AllDigits(Zeros(k) + digits)
    ensures DigitsValue("0" + (Zeros(k) + digits)) == DigitsValue(digits)
  {
    LeadingZerosAddNothing(k, digits);
    assert "0" + (Zeros(k) + digits) == Zeros(k + 1) + digits;
    LeadingZerosAddNothing(k + 1, digits);
  }
}
