/** The renderer's command-line configuration (src/AppConfig.cpp): the exact
    argument-count check, the positional reading of `argv[1]`..`argv[12]`, the
    `std::stoi`/`std::stof` conversions those positions go through, and the
    encoding and scene blocks selected by id. */
module Config {
  import opened Wrappers
  import opened MachineInts
  import Sweep
  import NrcHpmBench

  // ---------------------------------------------------------------------------
  // std::stoi and std::stof
  // ---------------------------------------------------------------------------

  predicate IsDigit(c: char)
  {
    '0' <= c <= '9'
  }

  predicate IsDigits(s: string)
  {
    forall i :: 0 <= i < |s| ==> IsDigit(s[i])
  }

  /** Length of the run of decimal digits at the start of `s`. */
  function DigitRun(s: string): (n: nat)
    ensures n <= |s| && IsDigits(s[..n])
    ensures n < |s| ==> !IsDigit(s[n])
  {
    if |s| == 0 || !IsDigit(s[0]) then 0
    else
      var n := 1 + DigitRun(s[1..]);
      assert s[..n] == [s[0]] + s[1..][..n - 1];
      n
  }

  /** The value of a string of decimal digits, most significant first. */
  function DigitsValue(ds: string): nat
    requires IsDigits(ds)
  {
    if |ds| == 0 then 0
    else DigitsValue(ds[..|ds| - 1]) * 10 + (ds[|ds| - 1] as int - '0' as int)
  }

  function Pow10(n: nat): (p: nat)
    ensures p >= 1
  {
    if n == 0 then 1 else 10 * Pow10(n - 1)
  }

  /** The white space `isspace` accepts in the "C" locale, which `stoi` and
      `stof` skip before the number. */
  predicate IsCSpace(c: char)
  {
    c == ' ' || c == '\t' || c == '\n' || c == '\r' || c as int == 0x0B || c as int == 0x0C
  }

  function SkipSpace(s: string): (r: string)
    ensures |r| <= |s|
  {
    if |s| > 0 && IsCSpace(s[0]) then SkipSpace(s[1..]) else s
  }

  /** The leading sign, if any, as a factor, and the text after it. */
  function Sign(t: string): (r: (int, string))
    ensures r.0 == 1 || r.0 == -1
    ensures |r.1| <= |t|
  {
    if |t| > 0 && t[0] == '-' then (-1, t[1..])
    else if |t| > 0 && t[0] == '+' then (1, t[1..])
    else (1, t)
  }

  const INT32_MIN: int := -0x8000_0000
  const INT32_MAX: int := 0x7FFF_FFFF

  /** `std::stoi`: leading white space, an optional sign, then the longest run
      of decimal digits; whatever follows is ignored. No digit at all throws
      `invalid_argument`; a value outside `int` throws `out_of_range`. */
  function ParseInt(s: string): (r: Outcome<int>)
    ensures r.Ok? ==> INT32_MIN <= r.value <= INT32_MAX
  {
    var (sign, rest) := Sign(SkipSpace(s));
    IntOfDigits(sign, rest)
  }

  function IntOfDigits(sign: int, rest: string): (r: Outcome<int>)
    ensures r.Ok? ==> INT32_MIN <= r.value <= INT32_MAX
  {
    var n := DigitRun(rest);
    if n == 0 then Err("invalid_argument: stoi")
    else
      var v := sign * DigitsValue(rest[..n]);
      if v < INT32_MIN || v > INT32_MAX then Err("out_of_range: stoi") else Ok(v)
  }

  /** What `std::stof` returns: a finite float, kept as the exact value of its
      numeral (see "Left out"), a signed infinity, or NaN. */
  datatype Float = Finite(number: real) | Infinity(negative: bool) | NaN

  /** FLT_MAX plus half a unit in its last place, 2^128 - 2^103: the smallest
      magnitude that rounds to infinity. */
  const FLOAT_OVERFLOW: real := 340282356779733661637539395458142568448.0
  /** `strtof` sets `ERANGE`, and `stof` then throws `out_of_range`, when the
      magnitude `m` of a numeral rounds beyond FLT_MAX, or when it is not zero,
      lies below FLT_MIN and is no multiple of the smallest subnormal (the
      result is tiny and inexact). FLT_MIN is 1 / 2^126 and the smallest
      subnormal 1 / 2^149; the powers are written out. */
  predicate OutOfFloatRange(m: real)
  {
    m >= FLOAT_OVERFLOW
    || (0.0 < m && m * 85070591730234615865843651857942052864.0 < 1.0
        && (m * 713623846352979940529142984724747568191373312.0).Floor as real
           != m * 713623846352979940529142984724747568191373312.0)
  }

  /** The finite result of a numeral of magnitude `m`, or the range error. */
  function FiniteResult(sign: int, m: real): (r: Outcome<Float>)
    ensures r.Err? <==> OutOfFloatRange(m)
    ensures r.Ok? ==> r.value == Finite(sign as real * m)
  {
    if OutOfFloatRange(m) then Err("out_of_range: stof") else Ok(Finite(sign as real * m))
  }

  /** ASCII lower case, as `tolower` in the "C" locale. */
  function Lower(c: char): char
  {
    if 'A' <= c <= 'Z' then (c as int - 'A' as int + 'a' as int) as char else c
  }

  /** `s` starts with the lower-case `word`, ignoring case. */
  predicate StartsIgnoringCase(s: string, word: string)
  {
    |s| >= |word| && forall i :: 0 <= i < |word| ==> Lower(s[i]) == word[i]
  }

  /** The decimal exponent of an `e`/`E` suffix with at least one digit, or
      the binary exponent of a `p`/`P` suffix; any other suffix is not part of
      the number and counts as exponent 0. */
  function Exponent(t: string, marker: char): int
  {
    if |t| > 0 && Lower(t[0]) == marker then
      var (sign, rest) := Sign(t[1..]);
      var n := DigitRun(rest);
      if n == 0 then 0 else sign * DigitsValue(rest[..n])
    else 0
  }

  function Scale(e: int): (r: real)
    ensures r > 0.0
  {
    if e >= 0 then Pow10(e) as real else 1.0 / Pow10(-e) as real
  }

  function Pow2(n: nat): (p: nat)
    ensures p >= 1
  {
    if n == 0 then 1 else 2 * Pow2(n - 1)
  }

  function BinaryScale(e: int): (r: real)
    ensures r > 0.0
  {
    if e >= 0 then Pow2(e) as real else 1.0 / Pow2(-e) as real
  }

  predicate IsHexDigit(c: char)
  {
    IsDigit(c) || 'a' <= c <= 'f' || 'A' <= c <= 'F'
  }

  predicate IsHexDigits(s: string)
  {
    forall i :: 0 <= i < |s| ==> IsHexDigit(s[i])
  }

  function HexDigitValue(c: char): (v: nat)
    requires IsHexDigit(c)
    ensures v < 16
  {
    if IsDigit(c) then c as int - '0' as int
    else 10 + (Lower(c) as int - 'a' as int)
  }

  /** Length of the run of hexadecimal digits at the start of `s`. */
  function HexRun(s: string): (n: nat)
    ensures n <= |s| && IsHexDigits(s[..n])
    ensures n < |s| ==> !IsHexDigit(s[n])
  {
    if |s| == 0 || !IsHexDigit(s[0]) then 0
    else
      var n := 1 + HexRun(s[1..]);
      assert s[..n] == [s[0]] + s[1..][..n - 1];
      n
  }

  /** The value of a string of hexadecimal digits, most significant first. */
  function HexDigitsValue(ds: string): nat
    requires IsHexDigits(ds)
  {
    if |ds| == 0 then 0
    else HexDigitsValue(ds[..|ds| - 1]) * 16 + HexDigitValue(ds[|ds| - 1])
  }

  /** `0x` or `0X` followed by a hexadecimal digit, or by a point and one:
      the start of a hexadecimal numeral. Without such a digit only the `0`
      is read. */
  predicate HexStart(body: string)
  {
    |body| >= 3 && body[0] == '0' && (body[1] == 'x' || body[1] == 'X')
    && (IsHexDigit(body[2]) || (body[2] == '.' && |body| >= 4 && IsHexDigit(body[3])))
  }

  /** A hexadecimal numeral after its `0x`: digits, an optional fraction and
      an optional binary exponent. */
  function HexFloat(sign: int, digits: string): Outcome<Float>
  {
    var n1 := HexRun(digits);
    var after := digits[n1..];
    var (frac, tail) :=
      if |after| > 0 && after[0] == '.' then
        var n2 := HexRun(after[1..]);
        (after[1..][..n2], after[1..][n2..])
      else ("", after);
    var mantissa := HexDigitsValue(digits[..n1]) as real + HexDigitsValue(frac) as real / Pow2(4 * |frac|) as real;
    FiniteResult(sign, mantissa * BinaryScale(Exponent(tail, 'p')))
  }

  /** `std::stof`: leading white space and an optional sign, then `inf` or
      `infinity`, `nan`, a hexadecimal numeral or a decimal one (digits with an
      optional fraction, at least one digit in all, and an optional exponent);
      whatever follows is ignored. No digit throws `invalid_argument`, a
      magnitude out of float range throws `out_of_range`. */
  function ParseFloat(s: string): (r: Outcome<Float>)
    ensures r.Err? ==> r.msg == "invalid_argument: stof" || r.msg == "out_of_range: stof"
  {
    var signed := Sign(SkipSpace(s));
    var body := signed.1;
    if StartsIgnoringCase(body, "inf") then Ok(Infinity(signed.0 < 0))
    else if StartsIgnoringCase(body, "nan") then Ok(NaN)
    else if HexStart(body) then HexFloat(signed.0, body[2..])
    else
      var n1 := DigitRun(body);
      FloatAfterInteger(signed.0, body[..n1], body[n1..])
  }

  /** The optional fraction after the integer digits. */
  function FloatAfterInteger(sign: int, intPart: string, after: string): (r: Outcome<Float>)
    requires IsDigits(intPart)
  {
    if |after| > 0 && after[0] == '.' then
      var n2 := DigitRun(after[1..]);
      FloatValue(sign, intPart, after[1..][..n2], after[1..][n2..])
    else FloatValue(sign, intPart, "", after)
  }

  /** The exact magnitude of a decimal numeral. */
  function DecimalMagnitude(intPart: string, frac: string, tail: string): real
    requires IsDigits(intPart) && IsDigits(frac)
  {
    (DigitsValue(intPart) as real + DigitsValue(frac) as real / Pow10(|frac|) as real) * Scale(Exponent(tail, 'e'))
  }

  function FloatValue(sign: int, intPart: string, frac: string, tail: string): (r: Outcome<Float>)
    requires IsDigits(intPart) && IsDigits(frac)
    ensures r.Err? <==> |intPart| + |frac| == 0 || OutOfFloatRange(DecimalMagnitude(intPart, frac, tail))
    ensures r.Ok? ==> r.value == Finite(sign as real * DecimalMagnitude(intPart, frac, tail))
  {
    if |intPart| + |frac| == 0 then Err("invalid_argument: stof")
    else FiniteResult(sign, DecimalMagnitude(intPart, frac, tail))
  }

  /** `std::to_string` of a natural number: the partner of `ParseInt`. */
  function DecimalString(n: nat): (s: string)
    ensures |s| > 0 && IsDigits(s)
  {
    var d := ['0' + ((n % 10) as char)];
    if n < 10 then d else DecimalString(n / 10) + d
  }

  lemma {:induction false} DecimalStringValue(n: nat)
    ensures DigitsValue(DecimalString(n)) == n
  {
    var s := DecimalString(n);
    if n >= 10 {
      DecimalStringValue(n / 10);
      assert s[..|s| - 1] == DecimalString(n / 10);
    }
  }

  lemma {:induction false} DigitRunOfDigits(ds: string, rest: string)
    requires IsDigits(ds)
    requires |rest| == 0 || !IsDigit(rest[0])
    ensures DigitRun(ds + rest) == |ds|
  {
    if |ds| > 0 {
      assert (ds + rest)[1..] == ds[1..] + rest;
      DigitRunOfDigits(ds[1..], rest);
    } else {
      assert ds + rest == rest;
    }
  }

  /** A digit string's value has at most as many digits as the string. */
  lemma {:induction false} DigitsValueBound(ds: string)
    requires IsDigits(ds)
    ensures DigitsValue(ds) < Pow10(|ds|)
  {
    if |ds| > 0 {
      DigitsValueBound(ds[..|ds| - 1]);
    }
  }

  lemma StartsWithDigit(s: string)
    requires |s| > 0 && IsDigit(s[0])
    ensures SkipSpace(s) == s && Sign(s) == (1, s)
    ensures !StartsIgnoringCase(s, "inf") && !StartsIgnoringCase(s, "nan")
  {
    assert Lower(s[0]) == s[0];
  }

  /** `stoi` reads back any decimal numeral within `int`, followed by anything
      that does not start with a digit. */
  lemma ParseIntDigits(ds: string, rest: string)
    requires |ds| > 0 && IsDigits(ds) && DigitsValue(ds) <= INT32_MAX
    requires |rest| == 0 || !IsDigit(rest[0])
    ensures ParseInt(ds + rest) == Ok(DigitsValue(ds) as int)
  {
    var s := ds + rest;
    StartsWithDigit(s);
    DigitRunOfDigits(ds, rest);
    assert s[..|ds|] == ds;
    assert IntOfDigits(1, s) == Ok(DigitsValue(ds) as int);
  }

  /** Round trip: `stoi(to_string(n)) == n` for every `n` that fits an `int`. */
  lemma ParseIntOfDecimal(n: nat)
    requires n <= INT32_MAX
    ensures ParseInt(DecimalString(n)) == Ok(n)
  {
    DecimalStringValue(n);
    ParseIntDigits(DecimalString(n), "");
    assert DecimalString(n) + "" == DecimalString(n);
  }

  /** `stof` of `a.b` with digit strings `a` (non-empty) and `b`: the exact
      value, or the range error when it is out of float range. */
  lemma ParseFloatDecimal(a: string, b: string)
    requires |a| > 0 && IsDigits(a) && IsDigits(b)
    ensures ParseFloat(a + "." + b) == FiniteResult(1, DigitsValue(a) as real + DigitsValue(b) as real / Pow10(|b|) as real)
  {
    DecimalPoint(a, b);
    FractionNoExponent(a, b);
    FloatValueNoExponent(a, b);
  }

  /** A point after decimal digits is never part of a hexadecimal prefix. */
  lemma DecimalPoint(a: string, b: string)
    requires |a| > 0 && IsDigits(a) && IsDigits(b)
    ensures ParseFloat(a + "." + b) == FloatAfterInteger(1, a, "." + b)
  {
    var s := a + "." + b;
    assert s == a + ("." + b);
    assert !HexStart(s) by {
      if |a| > 1 { assert s[1] == a[1]; } else { assert s[1] == '.'; }
    }
    ParseFloatInteger(a, "." + b);
  }

  /** Digits followed by a non-digit: a hexadecimal numeral when the digits
      are a lone `0` followed by `x`, otherwise the decimal reading goes on
      with the fraction part. */
  lemma ParseFloatInteger(a: string, after: string)
    requires |a| > 0 && IsDigits(a) && |after| > 0 && !IsDigit(after[0])
    ensures HexStart(a + after) ==> ParseFloat(a + after) == HexFloat(1, (a + after)[2..])
    ensures !HexStart(a + after) ==> ParseFloat(a + after) == FloatAfterInteger(1, a, after)
    ensures HexStart(a + after) ==> a == "0"
  {
    var s := a + after;
    StartsWithDigit(s);
    DigitRunOfDigits(a, after);
    assert s[..|a|] == a;
    assert s[|a|..] == after;
  }

  /** `stof` of a decimal numeral alone: its value, or `out_of_range` when
      the value overflows float. */
  lemma ParseFloatNumeral(a: string)
    requires |a| > 0 && IsDigits(a)
    ensures ParseFloat(a) == FiniteResult(1, DigitsValue(a) as real)
    ensures ParseFloat(a).Err? <==> DigitsValue(a) as real >= FLOAT_OVERFLOW
  {
    DigitsAlone(a);
    WholeMagnitude(a);
    WholeNumberRange(DigitsValue(a));
  }

  lemma DigitsAlone(a: string)
    requires |a| > 0 && IsDigits(a)
    ensures ParseFloat(a) == FloatValue(1, a, "", "")
  {
    StartsWithDigit(a);
    assert !HexStart(a) by {
      if |a| > 1 { assert IsDigit(a[1]); }
    }
    DigitRunOfDigits(a, "");
    assert a + "" == a;
    assert a[..|a|] == a && a[|a|..] == "";
  }

  /** Without an exponent, the magnitude is the integer part plus the fraction. */
  lemma NoFractionMagnitude(a: string, b: string)
    requires IsDigits(a) && IsDigits(b)
    ensures DecimalMagnitude(a, b, "") == DigitsValue(a) as real + DigitsValue(b) as real / Pow10(|b|) as real
  {
    NoExponent();
    var x := DigitsValue(a) as real + DigitsValue(b) as real / Pow10(|b|) as real;
    assert x * 1.0 == x;
  }

  lemma NoExponent()
    ensures Scale(Exponent("", 'e')) == 1.0
  {
    assert Exponent("", 'e') == 0;
  }

  lemma WholeMagnitude(a: string)
    requires IsDigits(a)
    ensures DecimalMagnitude(a, "", "") == DigitsValue(a) as real
  {
    NoFractionMagnitude(a, "");
    assert DigitsValue("") == 0 && Pow10(0) == 1;
  }

  /** A whole number is out of float range only by overflowing. */
  lemma WholeNumberRange(n: nat)
    ensures OutOfFloatRange(n as real) <==> n as real >= FLOAT_OVERFLOW
  {
    if n > 0 {
      MulAtLeast(n as real, 85070591730234615865843651857942052864.0);
    }
  }

  lemma MulAtLeast(x: real, y: real)
    requires x >= 1.0 && y >= 0.0
    ensures x * y >= y
  {
    assert x * y - y == (x - 1.0) * y;
  }

  /** `inf` and `nan`, in any case and with anything after them, are read as
      infinity (negative after a `-`) and NaN. */
  lemma ParseFloatSpecial(rest: string)
    ensures ParseFloat("inf" + rest) == Ok(Infinity(false))
    ensures ParseFloat("-INF" + rest) == Ok(Infinity(true))
    ensures ParseFloat("nan" + rest) == Ok(NaN)
  {
    assert ("-INF" + rest)[1..] == "INF" + rest;
    assert Lower('I') == 'i' && Lower('N') == 'n' && Lower('F') == 'f';
  }

  /** A hexadecimal numeral with a binary exponent: `stof("0x1p3")` is 8. */
  lemma ParseFloatHex()
    ensures ParseFloat("0x1p3") == Ok(Finite(8.0))
  {
    HexText();
    HexEight();
  }

  lemma HexText()
    ensures ParseFloat("0x1p3") == HexFloat(1, "1p3")
  {
    HexNumeral("1p3");
    assert "0x" + "1p3" == "0x1p3";
  }

  /** `0x` and a hexadecimal digit start a hexadecimal numeral. */
  lemma HexNumeral(digits: string)
    requires |digits| > 0 && IsHexDigit(digits[0])
    ensures ParseFloat("0x" + digits) == HexFloat(1, digits)
  {
    var s := "0x" + digits;
    StartsWithDigit(s);
    assert HexStart(s);
    assert s[2..] == digits;
  }

  lemma HexEight()
    ensures HexFloat(1, "1p3") == Ok(Finite(8.0))
  {
    var digits := "1p3";
    assert HexRun(digits) == 1;
    assert digits[1..] == "p3";
    assert Exponent("p3", 'p') == 3 by {
      assert DigitRun("3") == 1;
      assert DigitsValue("3") == 3;
    }
    assert Pow2(3) == 8;
  }

  /** A non-zero value below the smallest subnormal float: `stof("1e-50")`
      throws `out_of_range`. */
  lemma ParseFloatUnderflow()
    ensures ParseFloat("1e-50").Err?
  {
    UnderflowText();
    UnitMagnitude("e-50");
    Pow10Fifty();
    TinyOutOfRange(Pow10(50));
  }

  lemma Pow10Fifty()
    ensures Pow10(50) == 100000000000000000000000000000000000000000000000000
  {
    assert Pow10(5) == 100000;
    Pow10Mul(5, 5, 100000, 100000);
    Pow10Mul(10, 10, 10000000000, 10000000000);
    Pow10Mul(20, 20, 100000000000000000000, 100000000000000000000);
    Pow10Mul(40, 10, 10000000000000000000000000000000000000000, 10000000000);
  }

  lemma UnderflowText()
    ensures ParseFloat("1e-50") == FloatValue(1, "1", "", "e-50")
    ensures Scale(Exponent("e-50", 'e')) == 1.0 / Pow10(50) as real
  {
    ParseFloatInteger("1", "e-50");
    assert "1" + "e-50" == "1e-50";
    ExponentMinusFifty();
  }

  lemma ExponentMinusFifty()
    ensures Exponent("e-50", 'e') == -50
  {
    var tail := "e-50";
    assert Lower('e') == 'e';
    assert tail[1..] == "-50";
    assert Sign("-50") == (-1, "50");
    assert DigitRun("50") == 2;
    assert "50"[..2] == "50";
    assert DigitsValue("50") == 50;
  }

  /** The numeral `1` with an exponent suffix has the scale as its magnitude. */
  lemma UnitMagnitude(tail: string)
    ensures DecimalMagnitude("1", "", tail) == Scale(Exponent(tail, 'e'))
  {
    assert DigitsValue("1") == 1 && DigitsValue("") == 0 && Pow10(0) == 1;
    var x := DigitsValue("1") as real + DigitsValue("") as real / Pow10(|""|) as real;
    assert x == 1.0;
  }

  lemma Pow10Mul(x: nat, y: nat, px: nat, py: nat)
    requires Pow10(x) == px && Pow10(y) == py
    ensures Pow10(x + y) == px * py
  {
    Pow10Add(x, y);
  }

  /** The inverse of a number above 2^149 is tiny and no multiple of the
      smallest subnormal. */
  lemma TinyOutOfRange(p: nat)
    requires p > 713623846352979940529142984724747568191373312
    ensures OutOfFloatRange(1.0 / p as real)
  {
    var m := 1.0 / p as real;
    assert m * p as real == 1.0;
    assert m * 713623846352979940529142984724747568191373312.0 < 1.0;
  }

  lemma {:induction false} Pow10Add(x: nat, y: nat)
    ensures Pow10(x + y) == Pow10(x) * Pow10(y)
  {
    if x > 0 {
      Pow10Add(x - 1, y);
    }
  }

  lemma FractionNoExponent(a: string, b: string)
    requires IsDigits(a) && IsDigits(b)
    ensures FloatAfterInteger(1, a, "." + b) == FloatValue(1, a, b, "")
  {
    var after := "." + b;
    assert after[1..] == b;
    DigitRunOfDigits(b, "");
    assert b + "" == b;
    assert b[..|b|] == b;
    assert b[|b|..] == "";
  }

  lemma FloatValueNoExponent(a: string, b: string)
    requires |a| > 0 && IsDigits(a) && IsDigits(b)
    ensures FloatValue(1, a, b, "") == FiniteResult(1, DigitsValue(a) as real + DigitsValue(b) as real / Pow10(|b|) as real)
  {
    NoFractionMagnitude(a, b);
  }

  // ---------------------------------------------------------------------------
  // Configuration blocks selected by id
  // ---------------------------------------------------------------------------

  /** One nested encoding of the composite input encoding. */
  datatype Encoding =
    | HashGrid(nDimsToEncode: nat, nLevels: nat, nFeaturesPerLevel: nat,
               log2HashmapSize: nat, baseResolution: nat, perLevelScale: real)
    | OneBlob(nDimsToEncode: nat, nBins: nat)

  /** `AppConfig::NNEncodingConfig`: a composite encoding whose nested
      encodings' outputs are concatenated. */
  datatype NNEncodingConfig = Composite(reduction: string, nested: seq<Encoding>)

  /** `AppConfig::HpmSceneConfig`. */
  datatype HpmSceneConfig = HpmSceneConfig(
    dirLightStrength: real,
    pointLightStrength: real,
    hdrEnvMapPath: string,
    hdrEnvMapDirectStrength: real,
    hdrEnvMapHpmStrength: real)

  /** `NNEncodingConfig(id)`: id 0 is a 3-dimensional multi-resolution hash
      grid (16 levels of 2 features, 2^19 table entries, base resolution 16,
      scale 2) concatenated with a 2-dimensional one-blob encoding of 4 bins;
      every other id is an error. */
  function EncodingConfig(id: nat): (r: Outcome<NNEncodingConfig>)
    ensures r.Err? <==> id != 0
    ensures r.Err? ==> r.msg == "NNEncodingConfig ID is invalid"
    ensures r.Ok? ==> (r.value.reduction == "Concatenation" && |r.value.nested| == 2
      && r.value.nested[0] == HashGrid(3, 16, 2, 19, 16, 2.0)
      && r.value.nested[1] == OneBlob(2, 4))
  {
    if id == 0 then
      Ok(Composite("Concatenation", [HashGrid(3, 16, 2, 19, 16, 2.0), OneBlob(2, 4)]))
    else Err("NNEncodingConfig ID is invalid")
  }

  /** `HpmSceneConfig(id)`: id 0 is the photo-studio environment map with a
      directional light of strength 16, no point light, direct strength 1 and
      HPM strength 0; every other id is an error. */
  function SceneConfig(id: nat): (r: Outcome<HpmSceneConfig>)
    ensures r.Err? <==> id != 0
    ensures r.Err? ==> r.msg == "HpmSceneConfig ID is invalid"
    ensures r.Ok? ==> r.value == HpmSceneConfig(16.0, 0.0, "data/image/photostudio.hdr", 1.0, 0.0)
  {
    if id == 0 then Ok(HpmSceneConfig(16.0, 0.0, "data/image/photostudio.hdr", 1.0, 0.0))
    else Err("HpmSceneConfig ID is invalid")
  }

  // ---------------------------------------------------------------------------
  // AppConfig(argc, argv)
  // ---------------------------------------------------------------------------

  /** The parsed configuration; unsigned fields hold the `int` from `stoi`
      converted to `uint32_t`. */
  datatype AppConfig = AppConfig(
    lossFn: string,
    optimizer: string,
    learningRate: Float,
    encoding: NNEncodingConfig,
    nnWidth: nat,
    nnDepth: nat,
    log2BatchSize: nat,
    scene: HpmSceneConfig,
    renderWidth: nat,
    renderHeight: nat,
    trainSampleRatio: Float,
    trainSpp: nat)

  /** The network fields, positions 3 to 7. */
  datatype NetworkFields = NetworkFields(
    learningRate: Float, encoding: NNEncodingConfig, nnWidth: nat, nnDepth: nat, log2BatchSize: nat)

  /** The renderer fields, positions 9 to 12. */
  datatype RenderFields = RenderFields(
    renderWidth: nat, renderHeight: nat, trainSampleRatio: Float, trainSpp: nat)

  const ARGUMENT_COUNT := 13
  const ARGUMENT_COUNT_ERROR := "Argument count does not match requirements for AppConfig"

  /** `stoi` followed by the conversion to `uint32_t`. */
  function ParseUint32(s: string): (r: Outcome<nat>)
    ensures r.Ok? ==> r.value < TWO_TO_THE_32
    ensures r.Ok? <==> ParseInt(s).Ok?
  {
    var v :- ParseInt(s);
    Ok(Wrap32(v))
  }

  function NetworkFrom(argv: seq<string>): Outcome<NetworkFields>
    requires |argv| == ARGUMENT_COUNT
  {
    var learningRate :- ParseFloat(argv[3]);
    var encodingId :- ParseUint32(argv[4]);
    var encoding :- EncodingConfig(encodingId);
    var nnWidth :- ParseUint32(argv[5]);
    var nnDepth :- ParseUint32(argv[6]);
    var log2BatchSize :- ParseUint32(argv[7]);
    Ok(NetworkFields(learningRate, encoding, nnWidth, nnDepth, log2BatchSize))
  }

  function RenderFrom(argv: seq<string>): Outcome<RenderFields>
    requires |argv| == ARGUMENT_COUNT
  {
    var renderWidth :- ParseUint32(argv[9]);
    var renderHeight :- ParseUint32(argv[10]);
    var trainSampleRatio :- ParseFloat(argv[11]);
    var trainSpp :- ParseUint32(argv[12]);
    Ok(RenderFields(renderWidth, renderHeight, trainSampleRatio, trainSpp))
  }

  /** The fields as the constructor reads them, positions 1 to 12 in turn; the
      first conversion that throws ends construction with its error. */
  function FromArgs(argv: seq<string>): (r: Outcome<AppConfig>)
  {
    if |argv| != ARGUMENT_COUNT then Err(ARGUMENT_COUNT_ERROR)
    else
      var net :- NetworkFrom(argv);
      var sceneId :- ParseUint32(argv[8]);
      var scene :- SceneConfig(sceneId);
      var ren :- RenderFrom(argv);
      Ok(AppConfig(argv[1], argv[2], net.learningRate, net.encoding, net.nnWidth, net.nnDepth,
                   net.log2BatchSize, scene, ren.renderWidth, ren.renderHeight,
                   ren.trainSampleRatio, ren.trainSpp))
  }

  /** Positions 3 to 7 read one after the other with `argv[index++]`. */
  method ReadNetworkFields(argv: seq<string>, index0: nat) returns (r: Outcome<NetworkFields>, index: nat)
    requires |argv| == ARGUMENT_COUNT && index0 == 3
    ensures r == NetworkFrom(argv)
    ensures r.Ok? ==> index == 8
  {
    index := index0;
    var learningRate :- ParseFloat(argv[index]);
    index := index + 1;
    var encodingId :- ParseUint32(argv[index]);
    var encoding :- EncodingConfig(encodingId);
    index := index + 1;
    var nnWidth :- ParseUint32(argv[index]);
    index := index + 1;
    var nnDepth :- ParseUint32(argv[index]);
    index := index + 1;
    var log2BatchSize :- ParseUint32(argv[index]);
    index := index + 1;
    r := Ok(NetworkFields(learningRate, encoding, nnWidth, nnDepth, log2BatchSize));
  }

  /** Positions 9 to 12 read one after the other with `argv[index++]`. */
  method ReadRenderFields(argv: seq<string>, index0: nat) returns (r: Outcome<RenderFields>, index: nat)
    requires |argv| == ARGUMENT_COUNT && index0 == 9
    ensures r == RenderFrom(argv)
    ensures r.Ok? ==> index == ARGUMENT_COUNT
  {
    index := index0;
    var renderWidth :- ParseUint32(argv[index]);
    index := index + 1;
    var renderHeight :- ParseUint32(argv[index]);
    index := index + 1;
    var trainSampleRatio :- ParseFloat(argv[index]);
    index := index + 1;
    var trainSpp :- ParseUint32(argv[index]);
    index := index + 1;
    r := Ok(RenderFields(renderWidth, renderHeight, trainSampleRatio, trainSpp));
  }

  /** `AppConfig(argc, argv)` as the source writes it: one field after the
      other, each from `argv[index++]`, every position used exactly once. */
  method ParseAppConfig(argv: seq<string>) returns (r: Outcome<AppConfig>)
    ensures |argv| != ARGUMENT_COUNT ==> r == Err(ARGUMENT_COUNT_ERROR)
    ensures r == FromArgs(argv)
  {
    if |argv| != ARGUMENT_COUNT {
      return Err(ARGUMENT_COUNT_ERROR);
    }
    var index := 1;
    var lossFn := argv[index];
    index := index + 1;
    var optimizer := argv[index];
    index := index + 1;
    var net;
    net, index := ReadNetworkFields(argv, index);
    if net.Err? {
      return Err(net.msg);
    }
    var sceneId :- ParseUint32(argv[index]);
    var scene :- SceneConfig(sceneId);
    index := index + 1;
    var ren;
    ren, index := ReadRenderFields(argv, index);
    if ren.Err? {
      return Err(ren.msg);
    }
    r := Ok(AppConfig(lossFn, optimizer, net.value.learningRate, net.value.encoding,
                      net.value.nnWidth, net.value.nnDepth, net.value.log2BatchSize, scene,
                      ren.value.renderWidth, ren.value.renderHeight,
                      ren.value.trainSampleRatio, ren.value.trainSpp));
  }

  /** Every position is consumed exactly once and in order: the two strings
      verbatim, every number from its own position, and nothing else. */
  lemma PositionalFields(argv: seq<string>)
    requires FromArgs(argv).Ok?
    ensures |argv| == ARGUMENT_COUNT
    ensures var c := FromArgs(argv).value;
      c.lossFn == argv[1] && c.optimizer == argv[2]
      && Ok(c.learningRate) == ParseFloat(argv[3])
      && Ok(c.encoding) == EncodingConfig(Wrap32(ParseInt(argv[4]).value))
      && Ok(c.nnWidth) == ParseUint32(argv[5]) && Ok(c.nnDepth) == ParseUint32(argv[6])
      && Ok(c.log2BatchSize) == ParseUint32(argv[7])
      && Ok(c.scene) == SceneConfig(Wrap32(ParseInt(argv[8]).value))
      && Ok(c.renderWidth) == ParseUint32(argv[9]) && Ok(c.renderHeight) == ParseUint32(argv[10])
      && Ok(c.trainSampleRatio) == ParseFloat(argv[11]) && Ok(c.trainSpp) == ParseUint32(argv[12])
  {
    var net := NetworkFrom(argv).value;
    var ren := RenderFrom(argv).value;
    NetworkPositions(argv);
    RenderPositions(argv);
    assert ParseUint32(argv[8]).Ok?;
    var c := FromArgs(argv).value;
    assert c == AppConfig(argv[1], argv[2], net.learningRate, net.encoding, net.nnWidth, net.nnDepth,
                          net.log2BatchSize, c.scene, ren.renderWidth, ren.renderHeight,
                          ren.trainSampleRatio, ren.trainSpp);
  }

  lemma NetworkPositions(argv: seq<string>)
    requires |argv| == ARGUMENT_COUNT && NetworkFrom(argv).Ok?
    ensures var net := NetworkFrom(argv).value;
      Ok(net.learningRate) == ParseFloat(argv[3])
      && Ok(net.encoding) == EncodingConfig(Wrap32(ParseInt(argv[4]).value))
      && Ok(net.nnWidth) == ParseUint32(argv[5]) && Ok(net.nnDepth) == ParseUint32(argv[6])
      && Ok(net.log2BatchSize) == ParseUint32(argv[7])
  {
  }

  lemma RenderPositions(argv: seq<string>)
    requires |argv| == ARGUMENT_COUNT && RenderFrom(argv).Ok?
    ensures var ren := RenderFrom(argv).value;
      Ok(ren.renderWidth) == ParseUint32(argv[9]) && Ok(ren.renderHeight) == ParseUint32(argv[10])
      && Ok(ren.trainSampleRatio) == ParseFloat(argv[11]) && Ok(ren.trainSpp) == ParseUint32(argv[12])
  {
  }

  /** A negative encoding or scene id wraps to a large unsigned id and is
      rejected like any other unknown id. */
  lemma NegativeIdRejected(s: string)
    requires ParseInt(s).Ok? && ParseInt(s).value < 0
    ensures ParseUint32(s).Ok? && EncodingConfig(ParseUint32(s).value).Err?
      && SceneConfig(ParseUint32(s).value).Err?
  {
  }

  // ---------------------------------------------------------------------------
  // The NRC benchmark drives exactly this parser
  // ---------------------------------------------------------------------------

  /** The constructor accepts an argument vector whose numeric positions all
      convert and whose ids are both 0, with the fields read from the positions
      in order. */
  lemma FromArgsAccepts(argv: seq<string>)
    requires |argv| == ARGUMENT_COUNT
    requires ParseFloat(argv[3]).Ok? && ParseFloat(argv[11]).Ok?
    requires ParseInt(argv[4]) == Ok(0) && ParseInt(argv[8]) == Ok(0)
    requires forall i :: i in {5, 6, 7, 9, 10, 12} ==> ParseInt(argv[i]).Ok?
    ensures FromArgs(argv).Ok?
    ensures var c := FromArgs(argv).value;
      c.lossFn == argv[1] && c.optimizer == argv[2]
      && c.learningRate == ParseFloat(argv[3]).value
      && c.encoding == Composite("Concatenation", [HashGrid(3, 16, 2, 19, 16, 2.0), OneBlob(2, 4)])
      && c.nnWidth == Wrap32(ParseInt(argv[5]).value) && c.nnDepth == Wrap32(ParseInt(argv[6]).value)
      && c.log2BatchSize == Wrap32(ParseInt(argv[7]).value)
      && c.scene == HpmSceneConfig(16.0, 0.0, "data/image/photostudio.hdr", 1.0, 0.0)
      && c.renderWidth == Wrap32(ParseInt(argv[9]).value)
      && c.renderHeight == Wrap32(ParseInt(argv[10]).value)
      && c.trainSampleRatio == ParseFloat(argv[11]).value
      && c.trainSpp == Wrap32(ParseInt(argv[12]).value)
  {
    assert 5 in {5, 6, 7, 9, 10, 12} && 6 in {5, 6, 7, 9, 10, 12} && 7 in {5, 6, 7, 9, 10, 12};
    assert 9 in {5, 6, 7, 9, 10, 12} && 10 in {5, 6, 7, 9, 10, 12} && 12 in {5, 6, 7, 9, 10, 12};
  }

  /** Every integer option of the NRC sweep is a numeral of at most four digits. */
  lemma {:induction false} NumeralOptions(v: string)
    requires v in NrcHpmBench.ENCODING_OPTIONS + NrcHpmBench.NN_WIDTH_OPTIONS
      + NrcHpmBench.NN_DEPTH_OPTIONS + NrcHpmBench.LOG2_BATCH_SIZE_OPTIONS
      + NrcHpmBench.SCENE_OPTIONS + NrcHpmBench.RENDER_WIDTH_OPTIONS
      + NrcHpmBench.RENDER_HEIGHT_OPTIONS + NrcHpmBench.TRAIN_SPP_OPTIONS
    ensures |v| > 0 && IsDigits(v) && DigitsValue(v) < 10000
    ensures ParseInt(v) == Ok(DigitsValue(v) as int) && Wrap32(DigitsValue(v)) == DigitsValue(v)
  {
    assert v in ["0", "64", "128", "2", "6", "10", "12", "14", "16", "1920", "1080", "1", "4"];
    assert |v| <= 4 && |v| > 0 && IsDigits(v);
    DigitsValueBound(v);
    assert Pow10(|v|) <= 10000 by {
      assert Pow10(4) == 10000;
      if |v| < 4 {
        assert Pow10(3) == 1000;
        assert Pow10(2) == 100;
        assert Pow10(1) == 10;
      }
    }
    ParseIntDigits(v, "");
    assert v + "" == v;
  }

  /** Every rate option of the NRC sweep converts to a positive value. */
  lemma {:induction false} DecimalOptions(v: string)
    requires v in NrcHpmBench.LEARNING_RATE_OPTIONS + NrcHpmBench.TRAIN_SAMPLE_RATIO_OPTIONS
    ensures ParseFloat(v).Ok? && Positive(ParseFloat(v).value)
  {
    var b: string;
    if v == "0.01" { b := "01"; }
    else if v == "0.001" { b := "001"; }
    else if v == "0.0001" { b := "0001"; }
    else if v == "0.00001" { b := "00001"; }
    else if v == "0.02" { b := "02"; }
    else if v == "0.05" { b := "05"; }
    else { assert v == "0.1"; b := "1"; }
    assert v == "0" + "." + b;
    assert IsDigits(b) && DigitsValue(b) > 0;
    DecimalFraction("0", b);
  }

  /** `stof(a + "." + b)` for a zero integer part and a non-zero fraction of
      at most five digits is a positive float. */
  lemma DecimalFraction(a: string, b: string)
    requires |a| > 0 && IsDigits(a) && DigitsValue(a) == 0
    requires 0 < |b| <= 5 && IsDigits(b) && DigitsValue(b) > 0
    ensures ParseFloat(a + "." + b).Ok? && Positive(ParseFloat(a + "." + b).value)
  {
    DigitsValueBound(b);
    Pow10Monotone(|b|, 5);
    assert Pow10(5) == 100000;
    FractionInRange(DigitsValue(a) as real, DigitsValue(b), Pow10(|b|));
    ParseFloatDecimal(a, b);
  }

  lemma {:induction false} Pow10Monotone(i: nat, j: nat)
    requires i <= j
    ensures Pow10(i) <= Pow10(j)
    decreases j
  {
    if i < j {
      Pow10Monotone(i, j - 1);
    }
  }

  /** A positive finite float. */
  predicate Positive(f: Float)
  {
    f.Finite? && f.number > 0.0
  }

  /** A fraction `n / d` with `0 < n < d <= 100000`, after a zero integer
      part `z`, reads as a positive float. */
  lemma FractionInRange(z: real, n: nat, d: nat)
    requires z == 0.0 && 0 < n < d <= 100000
    ensures FiniteResult(1, z + n as real / d as real).Ok?
    ensures Positive(FiniteResult(1, z + n as real / d as real).value)
  {
    RatioBounds(n as real, d as real);
    var m := n as real / d as real;
    assert z + m == m;
    assert !OutOfFloatRange(m);
  }

  lemma RatioBounds(n: real, d: real)
    requires 1.0 <= n < d <= 100000.0
    ensures 0.0 < n / d < 1.0
    ensures n / d * 85070591730234615865843651857942052864.0 >= 1.0
  {
    var m := n / d;
    assert m * d == n;
    if m >= 1.0 {
      MulAtLeast(m, d);
    }
    assert m * 100000.0 - m * d == m * (100000.0 - d);
    assert m * 100000.0 >= m * d;
    assert m * 100000.0 >= 1.0;
    assert m > 0.0;
    assert m * 85070591730234615865843651857942052864.0 >= m * 100000.0;
  }

  /** Every command line the NRC benchmark generates is accepted: the shell
      splits it into the renderer name and the twelve values of its tuple, and
      the parser reads each field from the option list at the same position. */
  lemma BenchConfigsParse(k: nat)
    requires k < |Sweep.Product(NrcHpmBench.Axes())|
    ensures |Sweep.Product(NrcHpmBench.Axes())[k]| == 12
    ensures Sweep.AllWords(Sweep.Product(NrcHpmBench.Axes())[k])
    ensures Sweep.Tokens(Sweep.Command(Sweep.Joined(Sweep.Product(NrcHpmBench.Axes())[k])))
      == [Sweep.RENDERER] + Sweep.Product(NrcHpmBench.Axes())[k]
    ensures AcceptedTuple(Sweep.Product(NrcHpmBench.Axes())[k])
  {
    var axes := NrcHpmBench.Axes();
    var t := Sweep.Product(axes)[k];
    Sweep.ProductMember(axes, k);
    NrcHpmBench.OptionsAreWords();
    assert Sweep.AllWords(t) by {
      forall i | 0 <= i < |t| ensures Sweep.IsWord(t[i]) {
        assert t[i] in axes[i];
      }
    }
    Sweep.CommandTokens(t);
    TupleParses(t);
  }

  /** The renderer accepts `argv = [name] + t` and reads every field from the
      tuple position it was generated for. */
  predicate AcceptedTuple(t: seq<string>)
    requires |t| == 12
  {
    var argv := [Sweep.RENDERER] + t;
    FromArgs(argv).Ok?
    && var c := FromArgs(argv).value;
    c.lossFn == t[0] && c.optimizer == t[1] && Positive(c.learningRate)
    && c.encoding == Composite("Concatenation", [HashGrid(3, 16, 2, 19, 16, 2.0), OneBlob(2, 4)])
    && ParseInt(t[4]) == Ok(c.nnWidth as int) && ParseInt(t[5]) == Ok(c.nnDepth as int)
    && ParseInt(t[6]) == Ok(c.log2BatchSize as int)
    && c.scene == HpmSceneConfig(16.0, 0.0, "data/image/photostudio.hdr", 1.0, 0.0)
    && ParseInt(t[8]) == Ok(c.renderWidth as int) && ParseInt(t[9]) == Ok(c.renderHeight as int)
    && Positive(c.trainSampleRatio) && ParseInt(t[11]) == Ok(c.trainSpp as int)
  }

  lemma TupleParses(t: seq<string>)
    requires |t| == 12 && forall i :: 0 <= i < 12 ==> t[i] in NrcHpmBench.Axes()[i]
    ensures AcceptedTuple(t)
  {
    var axes := NrcHpmBench.Axes();
    var argv := [Sweep.RENDERER] + t;
    assert argv[1..] == t;
    assert t[2] in axes[2] && t[10] in axes[10];
    DecimalOptions(t[2]);
    DecimalOptions(t[10]);
    assert t[3] in axes[3] && t[4] in axes[4] && t[5] in axes[5] && t[6] in axes[6];
    assert t[7] in axes[7] && t[8] in axes[8] && t[9] in axes[9] && t[11] in axes[11];
    NumeralOptions(t[3]);
    NumeralOptions(t[4]);
    NumeralOptions(t[5]);
    NumeralOptions(t[6]);
    NumeralOptions(t[7]);
    NumeralOptions(t[8]);
    NumeralOptions(t[9]);
    NumeralOptions(t[11]);
    assert t[3] == "0" && t[7] == "0";
    assert DigitsValue("0") == 0;
    FromArgsAccepts(argv);
  }
}
