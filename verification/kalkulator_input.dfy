/** One surface field of the calculator (`kalkulator-form-input.tsx`). The
    user types a decimal with a comma; the text shown (`displayValue`) is
    kept apart from the number stored in the form (`value`), which the
    handlers set through the form's `onChange`.

    `Number.prototype.toString` is a parameter of the field (`toText`); the
    model asks of it only what each property needs. */
module KalkulatorInput {
  import opened Common
  import opened JsNumber

  const ZeroDisplay: string := "0,00"

  /** `^[0-9]*,?[0-9]*$`: digits, at most one comma, digits. */
  predicate AcceptedInput(s: string)
  {
    var k := IndexOf(s, ',');
    AllDigits(s[..k]) && (k == |s| || AllDigits(s[k + 1..]))
  }

  /** The texts the handlers treat as zero without parsing them. */
  predicate IsZeroText(s: string)
  {
    s == "" || s == "0" || s == "0,"
  }

  /** `parseNumber`: the first comma becomes a point, `parseFloat` reads the
      text, NaN becomes 0 and a negative number is raised to 0. */
  function ParseNumber(s: string): (v: real)
    ensures v >= 0.0
  {
    match ParseFloat(ReplaceFirst(s, ',', '.'))
    case None => 0.0
    case Some(n) => if n < 0.0 then 0.0 else n
  }

  /** `formatNumber`: zero is written `0,00`; any other number as `toText`
      writes it, with its first point turned into a comma. */
  function FormatNumber(v: real, toText: real -> string): string
  {
    if v == 0.0 then ZeroDisplay else ReplaceFirst(toText(v), '.', ',')
  }

  /** The number a change stores: the zero texts give 0, anything else is
      parsed. */
  function ChangedValue(s: string): real
  {
    if IsZeroText(s) then 0.0 else ParseNumber(s)
  }

  /** The decimal an accepted text denotes: the digits before the comma and
      after it; no digits at all denote 0. */
  function TextValue(s: string): real
    requires AcceptedInput(s)
  {
    var k := IndexOf(s, ',');
    var intPart := s[..k];
    var fracPart := if k == |s| then "" else s[k + 1..];
    if intPart == [] && fracPart == [] then 0.0 else Mantissa(intPart, fracPart)
  }

  /** On an accepted text `parseNumber` gives the decimal value of its
      digits (0 when there are none); it is never NaN and never clamped. */
  lemma ParseAcceptedText(s: string)
    requires AcceptedInput(s)
    ensures ParseNumber(s) == TextValue(s)
  {
    var k := IndexOf(s, ',');
    if k == |s| {
      ParseDigitsOnly(s);
    } else {
      ParseWithComma(s, k);
    }
  }

  lemma ParseDigitsOnly(s: string)
    requires AllDigits(s) && ',' !in s
    ensures ParseNumber(s) == if s == [] then 0.0 else Mantissa(s, "")
  {
    assert ReplaceFirst(s, ',', '.') == s;
    if s == [] {
      ParseFloatNoDigits("");
    } else {
      ParseFloatDigits(s);
      ParsedAs(s, DigitsValue(s) as real);
    }
  }

  lemma ParseWithComma(s: string, k: nat)
    requires k < |s| && s[k] == ',' && ',' !in s[..k]
    requires AllDigits(s[..k]) && AllDigits(s[k + 1..])
    ensures ParseNumber(s) == if k == 0 && k + 1 == |s| then 0.0 else Mantissa(s[..k], s[k + 1..])
  {
    var intPart := s[..k];
    var fracPart := s[k + 1..];
    assert ',' in s;
    assert IndexOf(s, ',') == k;
    assert ReplaceFirst(s, ',', '.') == intPart + "." + fracPart;
    if intPart == [] && fracPart == [] {
      assert intPart + "." + fracPart == ".";
      ParseFloatNoDigits(".");
    } else {
      ParseFloatPointed(intPart, fracPart);
      ParsedAs(s, Mantissa(intPart, fracPart));
    }
  }

  /** `parseNumber` keeps what `parseFloat` reads when it is not negative. */
  lemma ParsedAs(s: string, v: real)
    requires v >= 0.0 && ParseFloat(ReplaceFirst(s, ',', '.')) == Some(v)
    ensures ParseNumber(s) == v
  {
  }

  /** The empty text and a lone point are NaN. */
  lemma ParseFloatNoDigits(t: string)
    requires t == "" || t == "."
    ensures ParseFloat(t) == None
  {
    TrimStartOfTrimmed(t);
    assert DigitRun(t, 0) == 0;
    if t == "." {
      assert DigitRun(t, 1) == 1;
    }
  }

  /** The three zero texts are special-cased, but parsing them gives 0
      anyway: the value a change stores is `parseNumber` of every accepted
      text. */
  lemma ZeroTextsParseToZero(s: string)
    requires AcceptedInput(s)
    ensures ChangedValue(s) == ParseNumber(s) == TextValue(s)
  {
    ParseAcceptedText(s);
    if s == "0" || s == "0," {
      assert s[..1] == "0";
      assert IndexOf(s, ',') == 1;
      assert DigitsValue("0") == 0 by {
        assert "0"[..0] == [];
      }
    }
  }

  /** Reading back a displayed non-zero number gives the number, provided
      `toText` writes a decimal `parseFloat` reads back, with no comma; a
      displayed zero reads back as zero. */
  lemma FormatThenParse(v: real, toText: real -> string)
    requires v >= 0.0
    requires v != 0.0 ==> ',' !in toText(v) && ParseFloat(toText(v)) == Some(v)
    ensures ParseNumber(FormatNumber(v, toText)) == v
  {
    if v == 0.0 {
      ZeroDisplayReadsZero();
    } else {
      ReplaceFirstUndone(toText(v), '.', ',');
      ParsedAs(FormatNumber(v, toText), v);
    }
  }

  /** `0,00` reads back as 0. */
  lemma ZeroDisplayReadsZero()
    ensures ParseNumber(ZeroDisplay) == 0.0
  {
    ZeroesReadZero(ZeroDisplay);
  }

  lemma ZeroesReadZero(z: string)
    requires z == ZeroDisplay
    ensures ParseNumber(z) == 0.0
  {
    var intPart, fracPart := z[..1], z[2..];
    assert intPart == "0" && fracPart == "00";
    assert DigitsValue(intPart) == 0 by {
      assert intPart[..0] == [];
    }
    assert fracPart[1..][1..] == [];
    assert FracValue(fracPart[1..]) == 0.0;
    assert Mantissa(intPart, fracPart) == 0.0;
    assert z[1] == ',' && ',' !in intPart;
    ParseWithComma(z, 1);
  }

  /** The input field: the text shown and the number stored in the form. */
  class KalkulatorField {
    var displayValue: string
    var value: real
    const toText: real -> string

    /** The text starts as `0,00`, whatever the form holds. */
    constructor (initialValue: real, toText: real -> string)
      ensures displayValue == ZeroDisplay && value == initialValue && this.toText == toText
    {
      displayValue := ZeroDisplay;
      value := initialValue;
      this.toText := toText;
    }

    /** `handleInputChange`: an accepted text is shown and its number
        stored; a rejected edit changes nothing. */
    method HandleInputChange(inputValue: string)
      modifies this
      ensures AcceptedInput(inputValue) ==> displayValue == inputValue && value == ChangedValue(inputValue)
      ensures !AcceptedInput(inputValue) ==> displayValue == old(displayValue) && value == old(value)
    {
      if AcceptedInput(inputValue) || inputValue == "" {
        displayValue := inputValue;
        if inputValue == "" || inputValue == "0" || inputValue == "0," {
          value := 0.0;
        } else {
          var numericValue := ParseNumber(inputValue);
          value := numericValue;
        }
      }
    }

    /** `handleBlur`: a zero text becomes `0,00` and stores 0; any other text
        is parsed, stored and shown formatted. */
    method HandleBlur()
      modifies this
      ensures IsZeroText(old(displayValue)) ==> displayValue == ZeroDisplay && value == 0.0
      ensures !IsZeroText(old(displayValue)) ==>
                value == ParseNumber(old(displayValue)) && displayValue == FormatNumber(value, toText)
    {
      if displayValue == "" || displayValue == "0" || displayValue == "0," {
        displayValue := ZeroDisplay;
        value := 0.0;
      } else {
        var numericValue := ParseNumber(displayValue);
        displayValue := FormatNumber(numericValue, toText);
        value := numericValue;
      }
    }

    /** The sync done on every render: a zero in the form shows `0,00`, and
        a non-zero number shown as `0,00` is shown formatted instead.
        Afterwards the text is `0,00` exactly when the stored number is 0,
        as long as `toText` does not write a non-zero number as `0.00`. */
    method RenderSync()
      modifies this
      requires value != 0.0 ==> FormatNumber(value, toText) != ZeroDisplay
      ensures value == old(value)
      ensures value == 0.0 ==> displayValue == ZeroDisplay
      ensures value != 0.0 && old(displayValue) == ZeroDisplay ==> displayValue == FormatNumber(value, toText)
      ensures value != 0.0 && old(displayValue) != ZeroDisplay ==> displayValue == old(displayValue)
      ensures displayValue == ZeroDisplay <==> value == 0.0
    {
      if value == 0.0 && displayValue != ZeroDisplay {
        displayValue := ZeroDisplay;
      } else if value != 0.0 && displayValue == ZeroDisplay {
        displayValue := FormatNumber(value, toText);
      }
    }
  }

  /** Typing an accepted text and leaving the field stores the decimal the
      text denotes. */
  method TypeThenBlur(field: KalkulatorField, s: string)
    requires AcceptedInput(s)
    modifies field
    ensures field.value == TextValue(s)
  {
    field.HandleInputChange(s);
    field.HandleBlur();
    ZeroTextsParseToZero(s);
    if IsZeroText(s) {
      assert TextValue(s) == ChangedValue(s);
    }
  }
}
