/**
 * The PHP string operations the settings code relies on: `intval` and `floatval` on strings,
 * `explode`, `trim` and the decimal conversion that string concatenation applies
 * to integers.
 */
module Text {

  predicate IsDigit(c: char) { '0' <= c <= '9' }

  predicate AllDigits(s: string) { forall i :: 0 <= i < |s| ==> IsDigit(s[i]) }

  function DigitValue(c: char): nat
    requires IsDigit(c)
  {
    (c as int) - ('0' as int)
  }

  function DigitChar(d: nat): (c: char)
    requires d < 10
    ensures IsDigit(c) && DigitValue(c) == d
  {
    (('0' as int) + d) as char
  }

  /** Decimal digits of `n`, most significant first, without leading zeros. */
  function NatToString(n: nat): (r: string)
    ensures |r| > 0 && AllDigits(r)
    decreases n
  {
    if n < 10 then [DigitChar(n)] else NatToString(n / 10) + [DigitChar(n % 10)]
  }

  /** PHP's conversion of an int to a string: a leading '-' for negative values. */
  function IntToString(i: int): (r: string)
    ensures |r| > 0
  {
    if i < 0 then "-" + NatToString(-i) else NatToString(i)
  }

  /** The number a string of digits denotes, read left to right. */
  function DigitsValue(s: string): nat
    requires AllDigits(s)
  {
    if s == [] then 0 else DigitsValue(s[..|s| - 1]) * 10 + DigitValue(s[|s| - 1])
  }

  /** The longest prefix of `s` made of digits. */
  function LeadingDigits(s: string): (r: string)
    ensures AllDigits(r) && r <= s
    ensures |r| < |s| ==> !IsDigit(s[|r|])
  {
    if s != [] && IsDigit(s[0]) then [s[0]] + LeadingDigits(s[1..]) else []
  }

  /** The whitespace PHP skips before a numeric string: space, \t, \n, \r, \v, \f. */
  predicate IsNumericSpace(c: char)
  {
    c == ' ' || c == '\t' || c == '\n' || c == '\r' || c == '\U{0B}' || c == '\U{0C}'
  }

  function SkipSpace(s: string): (r: string)
    ensures |r| <= |s| && r == s[|s| - |r|..]
    ensures r != [] ==> !IsNumericSpace(r[0])
  {
    if s != [] && IsNumericSpace(s[0]) then SkipSpace(s[1..]) else s
  }

  /**
   * The whitespace JavaScript skips before a number: the ECMAScript WhiteSpace characters
   * (tab, vertical tab, form feed, space, no-break space, the byte-order mark and the
   * other Unicode space separators) and the LineTerminator characters.
   */
  predicate IsJsSpace(c: char)
  {
    || c == '\t' || c == '\U{0B}' || c == '\U{0C}' || c == ' ' || c == '\U{A0}' || c == '\U{FEFF}'
    || c == '\U{1680}' || ('\U{2000}' <= c <= '\U{200A}') || c == '\U{202F}' || c == '\U{205F}' || c == '\U{3000}'
    || c == '\n' || c == '\r' || c == '\U{2028}' || c == '\U{2029}'
  }

  /** What is left once the leading JavaScript whitespace is skipped. */
  function SkipJsSpace(s: string): (r: string)
    ensures |r| <= |s| && r == s[|s| - |r|..]
    ensures r != [] ==> !IsJsSpace(r[0])
  {
    if s != [] && IsJsSpace(s[0]) then SkipJsSpace(s[1..]) else s
  }

  /** Every whitespace character PHP skips, JavaScript skips too. */
  lemma NumericSpaceIsJsSpace(c: char)
    ensures IsNumericSpace(c) ==> IsJsSpace(c)
    ensures IsJsSpace('\U{A0}') && !IsNumericSpace('\U{A0}')
  {
  }

  /**
   * The integer `parseInt` with radix 10 takes from a string: leading JavaScript
   * whitespace, an optional sign, then the longest run of digits; no digits gives 0.
   */
  function LeadingInt(s: string): int
  {
    var t := SkipJsSpace(s);
    var signed := t != [] && (t[0] == '-' || t[0] == '+');
    var magnitude: int := DigitsValue(LeadingDigits(if signed then t[1..] else t));
    if signed && t[0] == '-' then -magnitude else magnitude
  }

  /** The leading integer of a sign-free, space-free string is the value of its leading digits. */
  lemma LeadingIntUnsigned(t: string)
    requires t != [] && !IsJsSpace(t[0]) && t[0] != '-' && t[0] != '+'
    ensures LeadingInt(t) == DigitsValue(LeadingDigits(t))
  {
    assert SkipJsSpace(t) == t;
  }

  /** A no-break space, which PHP would not skip, is skipped: "\u00A05" reads as 5. */
  lemma LeadingIntSkipsNoBreakSpace()
    ensures LeadingInt("\U{A0}5") == 5
  {
    assert SkipJsSpace("\U{A0}5") == "5";
    assert LeadingDigits("5") == "5";
  }

  /** The leading integer of '-' followed by text is the value of the text's leading digits, negated. */
  lemma LeadingIntNegative(t: string)
    ensures LeadingInt("-" + t) == -(DigitsValue(LeadingDigits(t)) as int)
  {
    var u := "-" + t;
    assert SkipJsSpace(u) == u;
    assert u[1..] == t;
  }

  lemma DigitsValueSnoc(s: string, c: char)
    requires AllDigits(s) && IsDigit(c)
    ensures AllDigits(s + [c]) && DigitsValue(s + [c]) == DigitsValue(s) * 10 + DigitValue(c)
  {
    assert (s + [c])[..|s + [c]| - 1] == s;
  }

  lemma {:induction false} DigitsOfNat(n: nat)
    ensures DigitsValue(NatToString(n)) == n
    decreases n
  {
    if n >= 10 {
      DigitsOfNat(n / 10);
      DigitsValueSnoc(NatToString(n / 10), DigitChar(n % 10));
    } else {
      assert NatToString(n)[..0] == [];
    }
  }

  lemma {:induction false} LeadingDigitsOfDigits(s: string)
    requires AllDigits(s)
    ensures LeadingDigits(s) == s
  {
    if s != [] {
      LeadingDigitsOfDigits(s[1..]);
    }
  }

  lemma {:induction false} LeadingDigitsStops(s: string, rest: string)
    requires AllDigits(s)
    requires rest != [] && !IsDigit(rest[0])
    ensures LeadingDigits(s + rest) == s
  {
    if s == [] {
      assert s + rest == rest;
    } else {
      assert (s + rest)[1..] == s[1..] + rest;
      LeadingDigitsStops(s[1..], rest);
    }
  }

  /** The leading-integer reader reads back every integer PHP writes. */
  lemma LeadingIntOfIntToString(i: int)
    ensures LeadingInt(IntToString(i)) == i
  {
    var n: nat := if i < 0 then -i else i;
    var d := NatToString(n);
    DigitsOfNat(n);
    LeadingDigitsOfDigits(d);
    if i < 0 {
      assert IntToString(i) == "-" + d;
      LeadingIntNegative(d);
    } else {
      assert IntToString(i) == d;
      LeadingIntUnsigned(d);
    }
  }

  // ------------------------------------------------------- PHP numeric strings

  /** Ten to the `n`. */
  function Pow10(n: nat): (p: nat)
    ensures p >= 1
  {
    if n == 0 then 1 else 10 * Pow10(n - 1)
  }

  /** `x` times ten to the `e`, one power of ten at a time. */
  function Scale(x: real, e: int): (r: real)
    ensures x >= 0.0 ==> r >= 0.0
    ensures e == 0 ==> r == x
    decreases if e >= 0 then e else -e
  {
    if e == 0 then x
    else if e > 0 then Scale(x, e - 1) * 10.0
    else Scale(x, e + 1) / 10.0
  }

  /**
   * The exponent that an 'e' or 'E', an optional sign and digits at the head of `s`
   * denote; 0 when `s` does not start that way (the letter is then not part of the number).
   */
  function Exponent(s: string): int
  {
    if s == [] || (s[0] != 'e' && s[0] != 'E') then 0
    else
      var u := s[1..];
      var signed := u != [] && (u[0] == '-' || u[0] == '+');
      var d: int := DigitsValue(LeadingDigits(if signed then u[1..] else u));
      if signed && u[0] == '-' then -d else d
  }

  /** A sign-free numeral cut into its whole digits, its fraction digits and what follows. */
  datatype Numeral = Numeral(whole: string, fraction: string, rest: string)

  /** The digits, then a '.' and more digits if present, at the head of `u`. */
  function SplitNumeral(u: string): (n: Numeral)
    ensures AllDigits(n.whole) && AllDigits(n.fraction)
    ensures n.whole == LeadingDigits(u)
  {
    var w := LeadingDigits(u);
    var after := u[|w|..];
    if after != [] && after[0] == '.' then
      var f := LeadingDigits(after[1..]);
      Numeral(w, f, after[1 + |f|..])
    else
      Numeral(w, [], after)
  }

  /** The three parts of a numeral, with the point between the digits when there is one, make up the string. */
  lemma SplitNumeralJoins(u: string)
    ensures var n := SplitNumeral(u);
      u == n.whole + (if |n.whole| + |n.rest| == |u| then [] else ['.'] + n.fraction) + n.rest
  {
    var n := SplitNumeral(u);
    var w := LeadingDigits(u);
    var after := u[|w|..];
    PrefixJoins(u, w);
    if after != [] && after[0] == '.' {
      var f := LeadingDigits(after[1..]);
      var rest := after[1 + |f|..];
      PrefixJoins(after[1..], f);
      assert after[1..][|f|..] == rest;
      JoinAtPoint(u, w, after, f, rest);
      assert n == Numeral(w, f, rest);
    } else {
      assert n == Numeral(w, [], after);
      assert u == w + [] + after;
    }
  }

  /** A string cut before a point: the part before, the point, the digits after it and the rest. */
  lemma JoinAtPoint(u: string, w: string, after: string, f: string, rest: string)
    requires u == w + after && after != [] && after[0] == '.' && after[1..] == f + rest
    ensures |w| + |rest| < |u| && u == w + (['.'] + f) + rest
  {
    assert after == ['.'] + after[1..];
  }

  /** A prefix and what follows it make up the whole string. */
  lemma PrefixJoins(s: string, p: string)
    requires p <= s
    ensures s == p + s[|p|..]
  {
  }

  /**
   * The value of the numeric prefix of a sign-free string: digits, optionally a point
   * and more digits, optionally an exponent. With no digit on either side of the point
   * the mantissa, and so the value, is 0.
   */
  function Magnitude(u: string): (m: real)
    ensures m >= 0.0
  {
    NumeralValue(SplitNumeral(u))
  }

  /** The mantissa times ten to the exponent. */
  function NumeralValue(n: Numeral): (m: real)
    requires AllDigits(n.whole) && AllDigits(n.fraction)
    ensures m >= 0.0
  {
    Scale(Mantissa(n.whole, n.fraction), Exponent(n.rest))
  }

  /** The whole digits plus the fraction: never a whole unit above the whole digits. */
  function Mantissa(whole: string, fraction: string): (r: real)
    requires AllDigits(whole) && AllDigits(fraction)
    ensures DigitsValue(whole) as real <= r < DigitsValue(whole) as real + 1.0
  {
    DigitsValue(whole) as real + Fraction(fraction)
  }

  /** Without fraction digits the mantissa is the whole digits. */
  lemma MantissaWhole(w: string)
    requires AllDigits(w)
    ensures Mantissa(w, []) == DigitsValue(w) as real
  {
  }

  /** The value of the digits after the point: each digit is worth a tenth of the one before. */
  function Fraction(f: string): (r: real)
    requires AllDigits(f)
    ensures 0.0 <= r < 1.0
    ensures f == [] ==> r == 0.0
  {
    if f == [] then 0.0 else (DigitValue(f[0]) as real + Fraction(f[1..])) / 10.0
  }

  /**
   * PHP `floatval` of a string: leading whitespace, an optional sign, then the numeric
   * prefix; a string without one gives 0.
   */
  function FloatVal(s: string): real
  {
    var t := SkipSpace(s);
    var signed := t != [] && (t[0] == '-' || t[0] == '+');
    var m := Magnitude(if signed then t[1..] else t);
    if signed && t[0] == '-' then -m else m
  }

  /** PHP's conversion of a float to an int: truncation toward zero. */
  function Truncate(x: real): (i: int)
    ensures x >= 0.0 ==> 0 <= i && i as real <= x < i as real + 1.0
    ensures x < 0.0 ==> i <= 0 && i as real - 1.0 < x <= i as real
  {
    if x >= 0.0 then x.Floor else -((-x).Floor)
  }

  /**
   * PHP `intval` of a string (PHP 7.1 and later): the numeric prefix, fraction and
   * exponent included, truncated toward zero.
   */
  function IntVal(s: string): int
  {
    Truncate(FloatVal(s))
  }

  /** Without an exponent a fraction never reaches 1, so truncation keeps the whole digits. */
  lemma MagnitudeWhole(u: string)
    requires Exponent(SplitNumeral(u).rest) == 0
    ensures Truncate(Magnitude(u)) == DigitsValue(LeadingDigits(u))
  {
    var n := SplitNumeral(u);
    MagnitudeOfSplit(u, n);
    NumeralValueOf(n);
  }

  /**
   * `intval` of a sign-free, space-free string without an exponent is the value of its
   * leading digits: a fraction is cut off.
   */
  lemma IntValUnsigned(t: string)
    requires t != [] && !IsNumericSpace(t[0]) && t[0] != '-' && t[0] != '+'
    requires Exponent(SplitNumeral(t).rest) == 0
    ensures IntVal(t) == DigitsValue(LeadingDigits(t))
  {
    FloatValUnsigned(t);
    MagnitudeWhole(t);
  }

  /**
   * `intval` of '-' then text without an exponent is the value of the text's leading
   * digits, negated: truncation is toward zero.
   */
  lemma IntValNegative(t: string)
    requires Exponent(SplitNumeral(t).rest) == 0
    ensures IntVal("-" + t) == -(DigitsValue(LeadingDigits(t)) as int)
  {
    FloatValNegative(t);
    TruncateNegate(Magnitude(t));
    MagnitudeWhole(t);
  }

  /** `floatval` of '-' then text is the magnitude of the text, negated. */
  lemma FloatValNegative(t: string)
    ensures FloatVal("-" + t) == -Magnitude(t)
  {
    var u := "-" + t;
    assert SkipSpace(u) == u;
    assert u[1..] == t;
  }

  /** Truncation toward zero is symmetric. */
  lemma TruncateNegate(m: real)
    requires m >= 0.0
    ensures Truncate(-m) == -Truncate(m)
  {
  }

  /** `intval` of digits, 'e' and digits is the first number times ten to the second. */
  lemma IntValExponent(w: string, d: string)
    requires w != [] && AllDigits(w) && d != [] && AllDigits(d)
    ensures IntVal(w + "e" + d) == DigitsValue(w) * Pow10(DigitsValue(d))
  {
    var u := w + ("e" + d);
    assert w + "e" + d == u;
    var m := DigitsValue(w) * Pow10(DigitsValue(d));
    assert u[0] == w[0];
    FloatValUnsigned(u);
    MagnitudeExponent(w, d);
    ScaleWhole(DigitsValue(w), DigitsValue(d));
    TruncateWhole(m);
  }

  /** Truncation keeps a whole number. */
  lemma TruncateWhole(n: int)
    ensures Truncate(n as real) == n
  {
  }

  lemma MagnitudeExponent(w: string, d: string)
    requires AllDigits(w) && d != [] && AllDigits(d)
    ensures Magnitude(w + ("e" + d)) == Scale(DigitsValue(w) as real, DigitsValue(d))
  {
    var n := Numeral(w, [], "e" + d);
    SplitWhole(w, "e" + d);
    MagnitudeOfSplit(w + ("e" + d), n);
    NumeralValueWhole(w, d);
  }

  /** The magnitude of a string is the value of the numeral it splits into. */
  lemma MagnitudeOfSplit(u: string, n: Numeral)
    requires SplitNumeral(u) == n
    ensures AllDigits(n.whole) && AllDigits(n.fraction)
    ensures Magnitude(u) == NumeralValue(n)
  {
  }

  /** Whole digits and an exponent without a fraction. */
  lemma NumeralValueWhole(w: string, d: string)
    requires AllDigits(w) && d != [] && AllDigits(d)
    ensures NumeralValue(Numeral(w, [], "e" + d)) == Scale(DigitsValue(w) as real, DigitsValue(d))
  {
    var n := Numeral(w, [], "e" + d);
    NumeralValueOf(n);
    MantissaWhole(w);
    ExponentDigits(d);
  }

  /** The value of a numeral, unfolded. */
  lemma NumeralValueOf(n: Numeral)
    requires AllDigits(n.whole) && AllDigits(n.fraction)
    ensures NumeralValue(n) == Scale(Mantissa(n.whole, n.fraction), Exponent(n.rest))
  {
  }

  /** A whole number scaled by a non-negative exponent stays whole. */
  lemma ScaleWhole(n: nat, e: nat)
    ensures Scale(n as real, e) == (n * Pow10(e)) as real
  {
    if e > 0 {
      var p := Pow10(e - 1);
      ScaleWhole(n, e - 1);
      assert Scale(n as real, e) == (n * p) as real * 10.0;
      assert Pow10(e) == 10 * p;
      TimesTen(n, p);
    }
  }

  /** Ten times a product, as a real. */
  lemma TimesTen(n: nat, p: nat)
    ensures (n * p) as real * 10.0 == (n * (10 * p)) as real
  {
  }

  /** Digits followed by neither a digit nor a point: no fraction, and the rest untouched. */
  lemma SplitWhole(w: string, rest: string)
    requires AllDigits(w) && rest != [] && !IsDigit(rest[0]) && rest[0] != '.'
    ensures SplitNumeral(w + rest) == Numeral(w, [], rest)
  {
    LeadingDigitsStops(w, rest);
    assert (w + rest)[|w|..] == rest;
  }

  /** 'e' and digits denote those digits as the exponent. */
  lemma ExponentDigits(d: string)
    requires d != [] && AllDigits(d)
    ensures Exponent("e" + d) == DigitsValue(d)
  {
    assert ("e" + d)[1..] == d;
    LeadingDigitsOfDigits(d);
  }

  /** `floatval` of a string that starts with neither space nor sign is its magnitude. */
  lemma FloatValUnsigned(t: string)
    requires t != [] && !IsNumericSpace(t[0]) && t[0] != '-' && t[0] != '+'
    ensures FloatVal(t) == Magnitude(t)
  {
    assert SkipSpace(t) == t;
  }

  /**
   * Worked cases: an exponent scales ("2e3" is 2000, "1.5e3" is 1500, "1e-3" is 0), a
   * fraction is cut toward zero ("5.9" is 5, "-5.9" is -5) and a bare fraction is 0.
   */
  lemma IntValExamples()
    ensures IntVal("2e3") == 2000 && IntVal("1.5e3") == 1500 && IntVal("1e-3") == 0
    ensures IntVal("5.9") == 5 && IntVal("-5.9") == -5 && IntVal(".5") == 0
  {
    IntValScientific();
    IntValFractionExponent();
    IntValNegativeExponent();
    IntValCutsFraction();
    IntValBareFraction();
  }

  lemma IntValScientific()
    ensures IntVal("2e3") == 2000
  {
    var n := Numeral("2", [], "e3");
    SplitScientific();
    ExponentThree();
    MagnitudeOfSplit("2e3", n);
    NumeralValueOf(n);
    MantissaWhole("2");
    assert DigitsValue("2") == 2;
    assert Scale(2.0, 3) == 2000.0;
    FloatValUnsigned("2e3");
    TruncateWhole(2000);
  }

  /** "2e3": whole digits "2", no fraction, exponent part "e3". */
  lemma SplitScientific()
    ensures SplitNumeral("2e3") == Numeral("2", [], "e3")
  {
    assert LeadingDigits("2e3") == "2";
  }

  lemma IntValCutsFraction()
    ensures IntVal("5.9") == 5 && IntVal("-5.9") == -5
  {
    assert LeadingDigits("5.9") == "5";
    assert SplitNumeral("5.9").rest == [] by {
      assert LeadingDigits("9") == "9";
    }
    IntValUnsigned("5.9");
    assert "-5.9" == "-" + "5.9";
    IntValNegative("5.9");
  }

  lemma IntValBareFraction()
    ensures IntVal(".5") == 0
  {
    assert LeadingDigits(".5") == [];
    assert SplitNumeral(".5").rest == [] by {
      assert LeadingDigits("5") == "5";
    }
    IntValUnsigned(".5");
  }

  lemma IntValFractionExponent()
    ensures IntVal("1.5e3") == 1500
  {
    MagnitudeFractionExponent();
    FloatValUnsigned("1.5e3");
    TruncateWhole(1500);
  }

  lemma MagnitudeFractionExponent()
    ensures Magnitude("1.5e3") == 1500.0
  {
    var n := Numeral("1", "5", "e3");
    SplitFractionExponent();
    MagnitudeOfSplit("1.5e3", n);
    NumeralValueOf(n);
    ExponentThree();
    assert Mantissa("1", "5") == 1.5 by {
      assert DigitsValue("1") == 1;
      assert Fraction("5") == 0.5;
    }
    assert Scale(1.5, 3) == 1500.0;
  }

  lemma SplitFractionExponent()
    ensures SplitNumeral("1.5e3") == Numeral("1", "5", "e3")
  {
    assert LeadingDigits("1.5e3") == "1";
    assert LeadingDigits("5e3") == "5";
  }

  /** "e3" is the exponent 3. */
  lemma ExponentThree()
    ensures Exponent("e3") == 3
  {
    assert LeadingDigits("3") == "3";
  }

  lemma IntValNegativeExponent()
    ensures IntVal("1e-3") == 0
  {
    var n := Numeral("1", [], "e-3");
    SplitNegativeExponent();
    MagnitudeOfSplit("1e-3", n);
    NumeralValueOf(n);
    MantissaWhole("1");
    assert DigitsValue("1") == 1;
    assert Scale(1.0, -3) == 0.001;
    FloatValUnsigned("1e-3");
  }

  /** "1e-3": whole digits "1", no fraction, exponent -3. */
  lemma SplitNegativeExponent()
    ensures SplitNumeral("1e-3") == Numeral("1", [], "e-3")
    ensures Exponent("e-3") == -3
  {
    assert LeadingDigits("1e-3") == "1";
    assert LeadingDigits("3") == "3";
  }

  /** `intval` of digits followed by text that neither continues nor scales them. */
  lemma IntValDigitsThen(d: string, rest: string)
    requires d != [] && AllDigits(d) && rest != [] && !IsDigit(rest[0])
    requires rest[0] != '.' && rest[0] != 'e' && rest[0] != 'E'
    ensures IntVal(d + rest) == DigitsValue(d)
  {
    LeadingDigitsStops(d, rest);
    assert (d + rest)[|d|..] == rest;
    assert SplitNumeral(d + rest).rest == rest;
    assert (d + rest)[0] == d[0];
    IntValUnsigned(d + rest);
  }

  /** The same after a '-': the value of the digits, negated. */
  lemma IntValNegativeDigitsThen(d: string, rest: string)
    requires AllDigits(d) && rest != [] && !IsDigit(rest[0])
    requires rest[0] != '.' && rest[0] != 'e' && rest[0] != 'E'
    ensures IntVal("-" + (d + rest)) == -(DigitsValue(d) as int)
  {
    LeadingDigitsStops(d, rest);
    assert (d + rest)[|d|..] == rest;
    assert SplitNumeral(d + rest).rest == rest;
    IntValNegative(d + rest);
  }

  /** `intval` reads back every integer PHP writes. */
  lemma IntValOfIntToString(i: int)
    ensures IntVal(IntToString(i)) == i
  {
    var n: nat := if i < 0 then -i else i;
    var d := NatToString(n);
    DigitsOfNat(n);
    LeadingDigitsOfDigits(d);
    assert d[|d|..] == [];
    assert SplitNumeral(d).rest == [];
    if i < 0 {
      assert IntToString(i) == "-" + d;
      IntValNegative(d);
    } else {
      assert IntToString(i) == d;
      IntValUnsigned(d);
    }
  }

  /** `intval` of a written integer followed by a unit such as `ms` or `px` is that integer. */
  lemma IntValOfIntToStringThen(i: int, rest: string)
    requires rest != [] && !IsDigit(rest[0])
    requires rest[0] != '.' && rest[0] != 'e' && rest[0] != 'E'
    ensures IntVal(IntToString(i) + rest) == i
  {
    var n: nat := if i < 0 then -i else i;
    var d := NatToString(n);
    DigitsOfNat(n);
    if i < 0 {
      assert IntToString(i) + rest == "-" + (d + rest);
      IntValNegativeDigitsThen(d, rest);
    } else {
      IntValDigitsThen(d, rest);
    }
  }

  /** A written integer holds only digits and a leading '-'. */
  lemma IntToStringAvoids(i: int, c: char)
    requires !IsDigit(c) && c != '-'
    ensures c !in IntToString(i)
  {
    var d := NatToString(if i < 0 then -i else i);
    assert forall k :: 0 <= k < |d| ==> IsDigit(d[k]);
    if i < 0 {
      assert IntToString(i) == "-" + d;
    }
  }

  /** PHP `explode(sep, s)`: the pieces of `s` between occurrences of `sep`. */
  function Explode(s: string, sep: char): (parts: seq<string>)
    ensures |parts| >= 1
  {
    if s == [] then [""]
    else
      var rest := Explode(s[1..], sep);
      if s[0] == sep then [""] + rest else [[s[0]] + rest[0]] + rest[1..]
  }

  /** PHP `implode(sep, parts)`. */
  function Implode(parts: seq<string>, sep: char): string
    requires |parts| >= 1
  {
    if |parts| == 1 then parts[0] else parts[0] + [sep] + Implode(parts[1..], sep)
  }

  /** Joining the pieces with the separator gives back the original string. */
  lemma {:induction false} ImplodeExplode(s: string, sep: char)
    ensures Implode(Explode(s, sep), sep) == s
  {
    if s != [] {
      var rest := Explode(s[1..], sep);
      ImplodeExplode(s[1..], sep);
      if s[0] == sep {
        assert ([""] + rest)[1..] == rest;
      } else {
        ImplodeExtendFirst(s[0], rest, sep);
      }
    }
  }

  /** Putting a character in front of the first piece puts it in front of the joined string. */
  lemma ImplodeExtendFirst(c: char, parts: seq<string>, sep: char)
    requires |parts| >= 1
    ensures Implode([[c] + parts[0]] + parts[1..], sep) == [c] + Implode(parts, sep)
  {
    var extended := [[c] + parts[0]] + parts[1..];
    if |parts| > 1 {
      assert extended[1..] == parts[1..];
    }
  }

  /** No piece contains the separator. */
  lemma {:induction false} ExplodePiecesFree(s: string, sep: char)
    ensures forall k :: 0 <= k < |Explode(s, sep)| ==> sep !in Explode(s, sep)[k]
  {
    if s != [] {
      ExplodePiecesFree(s[1..], sep);
    }
  }

  /** Splitting `a + [sep] + b`, where neither side holds `sep`, gives `[a, b]`. */
  lemma {:induction false} ExplodeTwo(a: string, b: string, sep: char)
    requires sep !in a && sep !in b
    ensures Explode(a + [sep] + b, sep) == [a, b]
  {
    if a == [] {
      assert [] + [sep] + b == [sep] + b;
      ExplodeOne(b, sep);
      assert ([sep] + b)[1..] == b;
    } else {
      assert (a + [sep] + b)[1..] == a[1..] + [sep] + b;
      ExplodeTwo(a[1..], b, sep);
      assert [a[0]] + a[1..] == a;
    }
  }

  /** A string without the separator is a single piece. */
  lemma {:induction false} ExplodeOne(s: string, sep: char)
    requires sep !in s
    ensures Explode(s, sep) == [s]
  {
    if s != [] {
      ExplodeOne(s[1..], sep);
      assert [s[0]] + s[1..] == s;
    }
  }

  /** The characters PHP `trim` removes: space, \t, \n, \r, \0 and \v. */
  predicate IsTrimmed(c: char)
  {
    c == ' ' || c == '\t' || c == '\n' || c == '\r' || c == '\0' || c == '\U{0B}'
  }

  function TrimLeft(s: string): (r: string)
    ensures |r| <= |s| && r == s[|s| - |r|..]
    ensures r != [] ==> !IsTrimmed(r[0])
  {
    if s != [] && IsTrimmed(s[0]) then TrimLeft(s[1..]) else s
  }

  function TrimRight(s: string): (r: string)
    ensures r <= s
    ensures r != [] ==> !IsTrimmed(r[|r| - 1])
    ensures forall k :: |r| <= k < |s| ==> IsTrimmed(s[k])
  {
    if s != [] && IsTrimmed(s[|s| - 1]) then TrimRight(s[..|s| - 1]) else s
  }

  /** PHP `trim`. */
  function Trim(s: string): string
  {
    TrimLeft(TrimRight(s))
  }

  /** A string that neither starts nor ends with trimmed characters is its own trim. */
  lemma TrimKeeps(s: string)
    requires s != [] && !IsTrimmed(s[0]) && !IsTrimmed(s[|s| - 1])
    ensures Trim(s) == s
  {
  }

  /** Trimming text that ends in one trimmed character, after a kept one, drops just it. */
  lemma TrimDropsLast(s: string, c: char)
    requires s != [] && !IsTrimmed(s[0]) && !IsTrimmed(s[|s| - 1]) && IsTrimmed(c)
    ensures Trim(s + [c]) == s
  {
    assert (s + [c])[..|s|] == s;
    assert TrimRight(s + [c]) == TrimRight(s) == s;
  }
}
