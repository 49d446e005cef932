/** The calculator's sum line (`KalkulatorSumDisplay.tsx`): the four counted
    surfaces P1..P4 are added and shown with two decimals and a comma. */
module KalkulatorSum {
  import opened Common
  import opened JsNumber

  /** The sum shown: P1 + P2 + P3 + P4. */
  function Suma(p1: real, p2: real, p3: real, p4: real): real
  {
    p1 + p2 + p3 + p4
  }

  /** `formatNumber`: zero is `0,00`; any other value is `toFixed(2)` with
      its point turned into a comma. */
  function FormatSum(v: real): string
  {
    if v == 0.0 then "0,00" else ReplaceFirst(ToFixed2(v), '.', ',')
  }

  /** What is shown is a sign, integer digits, one comma and two digits;
      there is no point, and the digits denote the magnitude to within half
      a hundredth. */
  lemma FormatSumShape(v: real)
    ensures var r := FormatSum(v);
            var a := if v < 0.0 then -v else v;
            exists sign: string, intPart: string, frac: string ::
              && sign in {"", "-"} && intPart != [] && AllDigits(intPart) && |frac| == 2 && AllDigits(frac)
              && r == sign + intPart + "," + frac
              && Mantissa(intPart, frac) - 0.005 <= a < Mantissa(intPart, frac) + 0.005
    ensures '.' !in FormatSum(v)
  {
    var a := if v < 0.0 then -v else v;
    if v == 0.0 {
      var z := FormatSum(v);
      ZeroShape(z);
      assert z == "" + "0" + "," + "00";
    } else {
      var sign := if v < 0.0 then "-" else "";
      var intPart := NatToString(RoundedHundredths(v) / 100);
      var frac := FixedFraction(v);
      ToFixed2Shape(v);
      CommaForPoint(sign + intPart, frac);
      assert '.' !in frac by {
        assert forall i :: 0 <= i < |frac| ==> IsDigit(frac[i]);
      }
      NoPointIn(sign + intPart, frac);
    }
  }

  /** `0,00` denotes 0, within the bound trivially. */
  lemma ZeroShape(z: string)
    requires z == "0,00"
    ensures Mantissa("0", "00") == 0.0
    ensures '.' !in z
  {
    var i, f := "0", "00";
    assert DigitsValue(i) == 0 by {
      assert i[..0] == [];
    }
    assert f[1..][1..] == [];
    assert FracValue(f[1..]) == 0.0;
  }

  lemma NoPointIn(head: string, frac: string)
    requires '.' !in head && '.' !in frac
    ensures '.' !in head + "," + frac
  {
    assert forall c :: c in head + "," + frac ==> c in head || c == ',' || c in frac;
  }

  /** A zero sum shows `0,00`. */
  lemma ZeroSumShown(p1: real, p2: real, p3: real, p4: real)
    requires Suma(p1, p2, p3, p4) == 0.0
    ensures FormatSum(Suma(p1, p2, p3, p4)) == "0,00"
  {
  }

  /** 1002.372 is shown as `1002,37`. */
  lemma ExampleSum()
    ensures FormatSum(1002.372) == "1002,37"
  {
    var v := 1002.372;
    ExampleFixed();
    assert v != 0.0;
    CommaForPoint("1002", "37");
    assert "1002" + "," + "37" == "1002,37";
  }

  /** The point after the integer digits becomes a comma. */
  lemma CommaForPoint(intPart: string, frac: string)
    requires '.' !in intPart
    ensures ReplaceFirst(intPart + "." + frac, '.', ',') == intPart + "," + frac
  {
    var t := intPart + "." + frac;
    assert t[..|intPart|] == intPart && t[|intPart|] == '.';
    assert IndexOf(t, '.') == |intPart|;
    assert t[|intPart| + 1..] == frac;
  }

  /** `(1002.372).toFixed(2)` is `1002.37`. */
  lemma ExampleFixed()
    ensures ToFixed2(1002.372) == "1002" + "." + "37"
  {
    assert RoundedHundredths(1002.372) == 100237 by {
      assert 1002.372 * 100.0 + 0.5 == 100237.7;
    }
    ExampleDigits(100237);
  }

  lemma ExampleDigits(n: nat)
    requires n == 100237
    ensures NatToString(n / 100) == "1002"
    ensures n % 100 / 10 == 3 && n % 10 == 7
  {
    assert NatToString(1) == "1";
    assert NatToString(10) == "1" + "0";
    assert NatToString(100) == "10" + "0";
    assert NatToString(1002) == "100" + "2";
  }
}
