/** The conversions between text and numbers that the core uses: `Number(s)`,
    `parseFloat(s)`, `String(n)` for a natural number and
    `Number.prototype.toFixed(2)`. Numbers are `real`; NaN is `None`.

    Both readers accept the decimal literals of ECMAScript (an optional sign,
    digits with an optional fraction, an optional exponent); the named
    literals (`Infinity`) and the hexadecimal, octal and binary forms are not
    part of this model, and neither is the rounding to binary floating point. */
module JsNumber {
  import opened Common

  function DigitValue(c: char): (d: nat)
    requires IsDigit(c)
    ensures d < 10
  {
    c as int - '0' as int
  }

  /** The value of a run of decimal digits, most significant first. */
  function DigitsValue(d: string): nat
    requires AllDigits(d)
  {
    if d == [] then 0 else DigitsValue(d[..|d| - 1]) * 10 + DigitValue(d[|d| - 1])
  }

  /** The end of the run of digits that starts at index `i`. */
  function DigitRun(s: string, i: nat): (j: nat)
    requires i <= |s|
    ensures i <= j <= |s|
    ensures AllDigits(s[i..j])
    ensures j == |s| || !IsDigit(s[j])
    decreases |s| - i
  {
    if i < |s| && IsDigit(s[i]) then
      var j := DigitRun(s, i + 1);
      assert s[i..j] == [s[i]] + s[i + 1..j];
      j
    else i
  }

  /** The value of fraction digits written after a point: `0.d1d2…`. */
  function FracValue(f: string): (v: real)
    requires AllDigits(f)
    ensures 0.0 <= v
    decreases |f|
  {
    if f == [] then 0.0 else (DigitValue(f[0]) as real + FracValue(f[1..])) / 10.0
  }

  /** The value of `intPart.fracPart`. */
  function Mantissa(intPart: string, fracPart: string): (m: real)
    requires AllDigits(intPart) && AllDigits(fracPart)
    ensures m >= 0.0
    ensures fracPart == [] ==> m == DigitsValue(intPart) as real
  {
    DigitsValue(intPart) as real + FracValue(fracPart)
  }

  /** `m` times ten to the power `e`. */
  function Scale(m: real, e: int): real
    decreases if e >= 0 then e else -e
  {
    if e == 0 then m
    else if e > 0 then Scale(m, e - 1) * 10.0
    else Scale(m, e + 1) / 10.0
  }

  /** A decimal literal read from the front of a text: its value and how many
      characters it took. */
  datatype Scan = Scan(value: real, length: nat)

  /** The exponent part `[eE][+-]?digits` starting at index `i`, if there is
      one: its value and the index after it. */
  function ScanExponent(s: string, i: nat): (r: Option<(int, nat)>)
    requires i <= |s|
    ensures r.Some? ==> i < r.value.1 <= |s|
  {
    if i < |s| && (s[i] == 'e' || s[i] == 'E') then
      var m := if i + 1 < |s| && (s[i + 1] == '+' || s[i + 1] == '-') then i + 2 else i + 1;
      var k := DigitRun(s, m);
      if k == m then None
      else
        var e: int := DigitsValue(s[m..k]);
        Some((if s[i + 1] == '-' then -e else e, k))
    else None
  }

  /** The longest decimal literal at the front of `s`: an optional sign, then
      digits with an optional `.` and fraction digits (at least one digit in
      all), then an optional exponent. `None` when there is none. */
  function ScanDecimal(s: string): (r: Option<Scan>)
    ensures r.Some? ==> 0 < r.value.length <= |s|
  {
    var i0 := if |s| > 0 && (s[0] == '+' || s[0] == '-') then 1 else 0;
    var j := DigitRun(s, i0);
    var hasPoint := j < |s| && s[j] == '.';
    var k := if hasPoint then DigitRun(s, j + 1) else j;
    var intPart := s[i0..j];
    var fracPart := if hasPoint then s[j + 1..k] else "";
    if intPart == [] && fracPart == [] then None
    else
      var m := Mantissa(intPart, fracPart);
      var signed := if i0 == 1 && s[0] == '-' then -m else m;
      match ScanExponent(s, k)
      case Some((e, end)) => Some(Scan(Scale(signed, e), end))
      case None => Some(Scan(signed, k))
  }

  /** `parseFloat(s)`: leading whitespace is skipped and the longest decimal
      literal is read; anything after it is ignored. `None` is NaN. */
  function ParseFloat(s: string): Option<real>
  {
    match ScanDecimal(TrimStart(s))
    case Some(sc) => Some(sc.value)
    case None => None
  }

  /** `Number(s)`: the whole text, once trimmed, must be one decimal literal;
      blank text is 0. `None` is NaN. */
  function Number(s: string): Option<real>
  {
    var t := Trim(s);
    if t == [] then Some(0.0)
    else match ScanDecimal(t)
      case Some(sc) => if sc.length == |t| then Some(sc.value) else None
      case None => None
  }

  /** `parseFloat` reads `a.b` (digits, a point, digits) as its decimal value. */
  lemma ParseFloatPointed(a: string, b: string)
    requires AllDigits(a) && AllDigits(b) && (a != [] || b != [])
    ensures ParseFloat(a + "." + b) == Some(Mantissa(a, b))
  {
    var s := a + "." + b;
    assert s[..|a|] == a && s[|a|] == '.' && s[|a| + 1..] == b;
    assert s[0] == if a != [] then a[0] else '.';
    TrimStartOfTrimmed(s);
    DigitRunAll(s, 0, |a|);
    DigitRunAll(s, |a| + 1, |s|);
    ScanPointed(s, |a|);
  }

  /** The scan of unsigned digits, a point and digits that fill the text. */
  lemma ScanPointed(s: string, j: nat)
    requires j < |s| && s[j] == '.'
    requires s[0] != '+' && s[0] != '-'
    requires DigitRun(s, 0) == j && DigitRun(s, j + 1) == |s|
    requires j > 0 || j + 1 < |s|
    ensures ScanDecimal(s) == Some(Scan(Mantissa(s[..j], s[j + 1..]), |s|))
  {
    ScanNoExponent(s, |s|);
    assert s[0..j] == s[..j];
    assert s[j + 1..|s|] == s[j + 1..];
  }

  /** `parseFloat` reads a nonempty run of digits as its value. */
  lemma ParseFloatDigits(a: string)
    requires AllDigits(a) && a != []
    ensures ParseFloat(a) == Some(DigitsValue(a) as real)
  {
    TrimStartOfTrimmed(a);
    assert a[0..|a|] == a;
    DigitRunAll(a, 0, |a|);
    ScanNoExponent(a, |a|);
    assert Mantissa(a, "") == DigitsValue(a) as real;
    assert ScanDecimal(a) == Some(Scan(DigitsValue(a) as real, |a|));
  }

  /** At the end of the text there is no exponent. */
  lemma ScanNoExponent(s: string, i: nat)
    requires i == |s|
    ensures ScanExponent(s, i) == None
  {
  }

  /** The run of digits from `i` ends at `j` when `s[i..j]` is all digits and
      `s[j]` is not a digit. */
  lemma {:induction false} DigitRunAll(s: string, i: nat, j: nat)
    requires i <= j <= |s|
    requires AllDigits(s[i..j])
    requires j == |s| || !IsDigit(s[j])
    ensures DigitRun(s, i) == j
    decreases j - i
  {
    if i < j {
      assert s[i] == s[i..j][0];
      assert s[i + 1..j] == s[i..j][1..];
      DigitRunAll(s, i + 1, j);
    }
  }

  /** `String(n)` for a natural number: its decimal digits, no leading zero. */
  function NatToString(n: nat): (r: string)
    ensures r != [] && AllDigits(r)
    ensures |r| > 1 ==> r[0] != '0'
  {
    if n < 10 then [DigitChar(n)]
    else
      var r := NatToString(n / 10) + [DigitChar(n % 10)];
      assert r[0] == NatToString(n / 10)[0];
      r
  }

  function DigitChar(d: nat): (c: char)
    requires d < 10
    ensures IsDigit(c) && DigitValue(c) == d
  {
    ('0' as int + d) as char
  }

  /** Reading back the digits of `String(n)` gives `n`. */
  lemma {:induction false} NatToStringValue(n: nat)
    ensures DigitsValue(NatToString(n)) == n
  {
    var r := NatToString(n);
    if n >= 10 {
      NatToStringValue(n / 10);
      assert r[..|r| - 1] == NatToString(n / 10);
    } else {
      assert r[..0] == [];
    }
  }

  /** `v.toFixed(2)`: the magnitude is rounded to hundredths, ties away from
      zero, and written with a point and two fraction digits, with `-` in
      front of a negative value. */
  function ToFixed2(v: real): (r: string)
  {
    var n := RoundedHundredths(v);
    (if v < 0.0 then "-" else "") + NatToString(n / 100) + "." +
      [DigitChar(n % 100 / 10), DigitChar(n % 10)]
  }

  /** The integer `n` closest to `|v| * 100`, the larger one on a tie. */
  function RoundedHundredths(v: real): (n: nat)
    ensures n as real - 0.5 <= (if v < 0.0 then -v else v) * 100.0 < n as real + 0.5
  {
    var a := if v < 0.0 then -v else v;
    (a * 100.0 + 0.5).Floor
  }

  /** The digits `ToFixed2` writes after the point. */
  function FixedFraction(v: real): (f: string)
    ensures |f| == 2 && AllDigits(f)
  {
    var n := RoundedHundredths(v);
    [DigitChar(n % 100 / 10), DigitChar(n % 10)]
  }

  /** What `ToFixed2` writes: a sign, the integer digits, a point and two
      fraction digits, and the number they denote is within half a hundredth
      of `|v|`. */
  lemma ToFixed2Shape(v: real)
    ensures var sign := if v < 0.0 then "-" else "";
            var intPart := NatToString(RoundedHundredths(v) / 100);
            && ToFixed2(v) == sign + intPart + "." + FixedFraction(v)
            && '.' !in sign + intPart
            && var shown := Mantissa(intPart, FixedFraction(v));
               var a := if v < 0.0 then -v else v;
               shown - 0.005 <= a < shown + 0.005
  {
    var n := RoundedHundredths(v);
    var intPart := NatToString(n / 100);
    assert '.' !in intPart by {
      assert forall i :: 0 <= i < |intPart| ==> IsDigit(intPart[i]);
    }
    FixedFractionValue(v);
    NatToStringValue(n / 100);
    HundredthsSplit(n);
  }

  lemma FixedFractionValue(v: real)
    ensures FracValue(FixedFraction(v)) == (RoundedHundredths(v) % 100) as real / 100.0
  {
    var n := RoundedHundredths(v);
    var f := FixedFraction(v);
    var d1, d2 := n % 100 / 10, n % 10;
    assert f[1..][1..] == [];
    assert FracValue(f[1..]) == d2 as real / 10.0;
    assert FracValue(f) == (d1 as real + d2 as real / 10.0) / 10.0;
    var m := n % 100;
    assert m % 10 == n % 10;
    assert m == d1 * 10 + d2;
  }

  lemma HundredthsSplit(n: nat)
    ensures (n / 100) as real + (n % 100) as real / 100.0 == n as real / 100.0
  {
    assert n == (n / 100) * 100 + n % 100;
  }
}
