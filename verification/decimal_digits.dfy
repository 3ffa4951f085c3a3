/**
  The `DecimalDigits` validator: a number must have at least `min` and/or at
  most `max` digits after its decimal point, where -1 leaves a bound unset.
 */
module DecimalDigits {
  import opened Options
  import opened PyText
  import opened Forms

  /** The value `min` and `max` default to: the bound is not checked. */
  const Unset: int := -1

  datatype Config = Config(min: int, max: int, message: Option<string>)

  /** Which of the constructor's two assertions stopped it. */
  datatype ConfigError = NoBoundGiven | MinAboveMax

  datatype Construction = Built(config: Config) | Rejected(reason: ConfigError)

  /** Some bound is given, and `min` is not above a given `max`. */
  predicate Valid(c: Config) {
    && (c.min != Unset || c.max != Unset)
    && (c.max == Unset || c.min <= c.max)
  }

  /**
    `DecimalDigits(min=-1, max=-1, message=None)`: the constructor keeps its arguments
    exactly when they form a valid configuration, and names the first
    assertion that fails otherwise.
   */
  function New(min: int := Unset, max: int := Unset, message: Option<string> := None): (r: Construction)
    ensures r.Built? <==> Valid(Config(min, max, message))
    ensures r.Built? ==> r.config == Config(min, max, message)
    ensures r == Rejected(NoBoundGiven) <==> min == Unset && max == Unset
  {
    if min == Unset && max == Unset then Rejected(NoBoundGiven)
    else if max != Unset && min > max then Rejected(MinAboveMax)
    else Built(Config(min, max, message))
  }

  /**
    The digit count as the validator computes it from `str(data)`: the number
    of characters after the first `.`, and 0 when there is no `.`.
   */
  function DigitsAfterPoint(s: string): (r: nat)
    ensures '.' !in s ==> r == 0
    ensures '.' in s ==> r < |s| && s[|s| - 1 - r] == '.' && '.' !in s[..|s| - 1 - r]
  {
    if '.' !in s then 0 else |s| - IndexOf(s, '.') - 1
  }

  /** Splitting a numeral at its first point: what follows the point is what is counted. */
  lemma DigitsAfterPointSplit(a: string, b: string)
    requires '.' !in a
    ensures DigitsAfterPoint(a + "." + b) == |b|
  {
    var s := a + "." + b;
    assert s[|a|] == '.';
  }

  /** The exponent of a Python numeral: an optional sign, then at least one digit. */
  function ExponentValue(t: string): (e: Option<int>)
    ensures e.Some? ==> |t| > 0
  {
    if |t| > 1 && (t[0] == '+' || t[0] == '-') && AllDigits(t[1..]) then
      Some(if t[0] == '-' then 0 - ParseNat(t[1..]) else ParseNat(t[1..]))
    else if |t| > 0 && AllDigits(t) then Some(ParseNat(t))
    else None
  }

  /**
    The number of decimal places of the value a numeral denotes: the digits
    after the point of its mantissa, shifted by its exponent. On a numeral
    without an exponent it is exactly `DigitsAfterPoint`.
   */
  function DecimalPlaces(s: string): (r: nat)
    ensures !HasExponent(s) ==> r == DigitsAfterPoint(s)
  {
    if !HasExponent(s) then DigitsAfterPoint(s)
    else
      match ExponentValue(s[ExponentIndex(s) + 1..])
      case None => DigitsAfterPoint(s)
      case Some(e) =>
        var shift := DigitsAfterPoint(Mantissa(s)) - e;
        if shift > 0 then shift else 0
  }

  /**
    For `m` times ten to the power `sign ds`, the places of `m` grow by the
    exponent when it is negative and shrink by it, down to none, when it is
    positive.
   */
  lemma DecimalPlacesScientific(m: string, marker: char, sign: char, ds: string)
    requires !HasExponent(m) && IsExponentMarker(marker)
    requires sign == '+' || sign == '-'
    requires |ds| > 0 && AllDigits(ds)
    ensures var shift := DigitsAfterPoint(m) + (if sign == '-' then ParseNat(ds) else 0 - ParseNat(ds));
            DecimalPlaces(m + [marker] + ([sign] + ds)) == if shift > 0 then shift else 0
  {
    var t := [sign] + ds;
    var s := m + [marker] + t;
    ExponentIndexAfter(m, marker, t);
    assert s[..|m|] == m;
    assert s[|m| + 1..] == t;
    SignedExponent(sign, ds);
  }

  /** A signed exponent reads as its digits' value, negated after a minus. */
  lemma SignedExponent(sign: char, ds: string)
    requires sign == '+' || sign == '-'
    requires |ds| > 0 && AllDigits(ds)
    ensures ExponentValue([sign] + ds) == Some(if sign == '-' then 0 - ParseNat(ds) else ParseNat(ds))
  {
    assert ([sign] + ds)[1..] == ds;
  }

  /**
    Python prints floats below 1e-4 in scientific notation, and the count the
    validator takes from the text then misses the exponent: 0.00001 prints as
    "1e-05" and is counted as having no decimal digits.
   */
  lemma TinyFloatMiscounted()
    ensures DigitsAfterPoint("1e-05") == 0 && DecimalPlaces("1e-05") == 5
  {
    assert !HasExponent("1");
    assert "05"[..1] == "0";
    assert ParseNat("05") == 5;
    DecimalPlacesScientific("1", 'e', '-', "05");
    assert "1" + ['e'] + (['-'] + "05") == "1e-05";
  }

  /** In the same way 1.5e-07, which has eight decimal places, is counted as having five. */
  lemma SmallFloatMiscounted()
    ensures DigitsAfterPoint("1.5e-07") == 5 && DecimalPlaces("1.5e-07") == 8
  {
    DigitsAfterPointSplit("1", "5e-07");
    assert "1" + "." + "5e-07" == "1.5e-07";
    DigitsAfterPointSplit("1", "5");
    assert "1" + "." + "5" == "1.5";
    assert !HasExponent("1.5");
    assert "07"[..1] == "0";
    assert ParseNat("07") == 7;
    DecimalPlacesScientific("1.5", 'e', '-', "07");
    assert "1.5" + ['e'] + (['-'] + "07") == "1.5e-07";
  }

  /** The digit count exactly as the validator takes it from `str(data)`. */
  function CountAsWritten(d: Data): (n: nat)
    requires IsNumber(d)
    ensures d.IntValue? || d.BoolValue? ==> n == 0
    ensures (d.FloatValue? || d.DecimalValue?) && '.' !in d.repr ==> n == 0
    ensures (d.FloatValue? || d.DecimalValue?) && '.' in d.repr ==>
              n < |d.repr| && d.repr[|d.repr| - 1 - n] == '.' && '.' !in d.repr[..|d.repr| - 1 - n]
  {
    DigitsAfterPoint(NumberText(d))
  }

  /**
    The decimal places of a number's `str()`, exponent included: the count
    the validator evidently means, and the one `Call` uses.
   */
  function Count(d: Data): (n: nat)
    requires IsNumber(d)
    ensures d.IntValue? || d.BoolValue? ==> n == 0
    ensures !HasExponent(NumberText(d)) ==> n == CountAsWritten(d)
  {
    DecimalPlaces(NumberText(d))
  }

  /** A digit count the bounds admit: not below `min`, and not above `max` when it is set. */
  function Within(c: Config, n: nat): (b: bool)
    ensures c.max == Unset ==> (b <==> c.min <= n)
    ensures c.min == Unset ==> (b <==> c.max == Unset || n <= c.max)
    ensures c.min == c.max != Unset ==> (b <==> n == c.max)
    ensures c.min != Unset && c.max != Unset ==> (b <==> c.min <= n <= c.max)
    ensures b ==> forall m: nat :: c.min <= m <= n ==> Within(c, m)
  {
    c.min <= n && (c.max == Unset || n <= c.max)
  }

  /**
    The default wording, chosen by which bounds are set: each wording names
    only bounds that are set, and the singular goes with a bound of 1.
   */
  function DefaultWording(c: Config): (w: DigitsWording)
    ensures !w.CustomDigits?
    ensures w.AtLeast? <==> c.max == Unset
    ensures w.AtMost? ==> c.min == Unset && c.max != Unset && w.plural == (c.max != 1)
    ensures w.Exactly? ==> c.min == c.max != Unset && w.plural == (c.max != 1)
    ensures w.AtLeast? ==> w.plural == (c.min != 1)
    ensures w.Between? ==> c.min != Unset && c.max != Unset && c.min != c.max
  {
    if c.max == Unset then AtLeast(Plural(c.min))
    else if c.min == Unset then AtMost(Plural(c.max))
    else if c.min == c.max then Exactly(Plural(c.max))
    else Between
  }

  /** The wording of a wrong-count failure: a configured message always wins. */
  function Wording(c: Config): (w: DigitsWording)
    ensures c.message.Some? ==> w == CustomDigits(c.message.value)
    ensures c.message.None? ==> !w.CustomDigits?
  {
    match c.message
    case Some(t) => CustomDigits(t)
    case None => DefaultWording(c)
  }

  /**
    `DecimalDigits.__call__`: data that is not a number fails with the
    unsupported-type message; a number passes exactly when its decimal
    places are within the bounds, and otherwise fails with the wrong-count
    message carrying the field's label and both bounds. It never halts the
    chain and never touches the field.
   */
  function Call(c: Config, form: Form, field: Field): (r: Outcome)
    ensures r != Halt
    ensures !IsNumber(field.data) ==> r == Fail(UnsupportedType(TypeRepr(field.data)))
    ensures IsNumber(field.data) ==> (r == Pass <==> Within(c, Count(field.data)))
    ensures r.Fail? && IsNumber(field.data) ==>
              r.message == WrongDigitCount(Wording(c), field.labelText, c.min, c.max)
  {
    var data := field.data;
    if !IsNumber(data) then Fail(UnsupportedType(TypeRepr(data)))
    else
      var digits := Count(data);
      if digits < c.min || (c.max != Unset && digits > c.max) then
        Fail(WrongDigitCount(Wording(c), field.labelText, c.min, c.max))
      else
        Pass
  }

  /**
    `DecimalDigits.__call__` exactly as written: the same as `Call`, except
    that the digits are counted by `CountAsWritten`.
   */
  function CallAsWritten(c: Config, form: Form, field: Field): (r: Outcome)
    ensures r != Halt
    ensures !IsNumber(field.data) ==> r == Fail(UnsupportedType(TypeRepr(field.data)))
    ensures IsNumber(field.data) ==> (r == Pass <==> Within(c, CountAsWritten(field.data)))
    ensures r.Fail? && IsNumber(field.data) ==>
              r.message == WrongDigitCount(Wording(c), field.labelText, c.min, c.max)
  {
    var data := field.data;
    if !IsNumber(data) then Fail(UnsupportedType(TypeRepr(data)))
    else
      var digits := CountAsWritten(data);
      if digits < c.min || (c.max != Unset && digits > c.max) then
        Fail(WrongDigitCount(Wording(c), field.labelText, c.min, c.max))
      else
        Pass
  }

  /**
    The validator as written and as corrected agree on everything but a
    float or Decimal printed with an exponent; a bool, whose "True" and
    "False" hold an `e`, counts no places either way.
   */
  lemma CallsAgreeWithoutExponent(c: Config, form: Form, field: Field)
    requires IsNumber(field.data) && !field.data.BoolValue? ==> !HasExponent(NumberText(field.data))
    ensures CallAsWritten(c, form, field) == Call(c, form, field)
  {
  }

  /**
    0.00001 prints as "1e-05": under `min=1` the validator as written
    rejects it with "at least 1", while it has five decimal places.
   */
  lemma TinyFloatRejectedAsWritten(form: Form, field: Field)
    requires field.data == FloatValue("1e-05")
    ensures CallAsWritten(Config(1, Unset, None), form, field)
            == Fail(WrongDigitCount(AtLeast(false), field.labelText, 1, Unset))
    ensures Call(Config(1, Unset, None), form, field) == Pass
  {
    TinyFloatMiscounted();
  }

  /**
    1.5e-07 has eight decimal places: under `max=6` the validator as written
    lets it through, counting five.
   */
  lemma SmallFloatAcceptedAsWritten(form: Form, field: Field)
    requires field.data == FloatValue("1.5e-07")
    ensures CallAsWritten(Config(Unset, 6, None), form, field) == Pass
    ensures Call(Config(Unset, 6, None), form, field).Fail?
  {
    SmallFloatMiscounted();
  }

  /** Data of an unsupported type fails the same way whatever the bounds, message or form. */
  lemma UnsupportedTypeIgnoresConfig(c1: Config, c2: Config, form1: Form, form2: Form, field: Field)
    requires !IsNumber(field.data)
    ensures CallAsWritten(c1, form1, field) == CallAsWritten(c2, form2, field) == Fail(UnsupportedType(TypeRepr(field.data)))
    ensures Call(c1, form1, field) == Call(c2, form2, field) == Fail(UnsupportedType(TypeRepr(field.data)))
  {
  }

  /** With `min` unset the lower check never fires: only a set `max` can be exceeded. */
  lemma UnsetMinNeverFires(c: Config, form: Form, field: Field)
    requires c.min == Unset && IsNumber(field.data)
    ensures CallAsWritten(c, form, field).Fail? <==> c.max != Unset && CountAsWritten(field.data) > c.max
    ensures Call(c, form, field).Fail? <==> c.max != Unset && Count(field.data) > c.max
  {
  }

  /**
    The default wording on failure: "at least" when only `min` is set, "at
    most" when only `max` is, "exactly" when they are equal and "between"
    otherwise, in the singular only for a bound of 1.
   */
  lemma DefaultWordingChoice(c: Config, form: Form, field: Field)
    requires c.message.None?
    requires IsNumber(field.data)
    requires CallAsWritten(c, form, field).Fail? || Call(c, form, field).Fail?
    ensures CallAsWritten(c, form, field).Fail? ==>
            var w := CallAsWritten(c, form, field).message.wording;
            && (c.max == Unset ==> w == AtLeast(c.min != 1))
            && (c.max != Unset && c.min == Unset ==> w == AtMost(c.max != 1))
            && (c.max != Unset && c.min != Unset && c.min == c.max ==> w == Exactly(c.max != 1))
            && (c.max != Unset && c.min != Unset && c.min != c.max ==> w == Between)
    ensures Call(c, form, field).Fail? ==>
            var w := Call(c, form, field).message.wording;
            && (c.max == Unset ==> w == AtLeast(c.min != 1))
            && (c.max != Unset && c.min == Unset ==> w == AtMost(c.max != 1))
            && (c.max != Unset && c.min != Unset && c.min == c.max ==> w == Exactly(c.max != 1))
            && (c.max != Unset && c.min != Unset && c.min != c.max ==> w == Between)
  {
  }

  /** Loosening the bounds never turns a pass into a failure. */
  lemma WiderBoundsKeepPass(c: Config, wider: Config, form: Form, field: Field)
    requires wider.min <= c.min
    requires wider.max == Unset || (c.max != Unset && c.max <= wider.max)
    requires CallAsWritten(c, form, field) == Pass || Call(c, form, field) == Pass
    ensures CallAsWritten(c, form, field) == Pass ==> CallAsWritten(wider, form, field) == Pass
    ensures Call(c, form, field) == Pass ==> Call(wider, form, field) == Pass
  {
  }

  /** An int (or bool) has no decimal places, so it passes exactly when the bounds admit 0. */
  lemma IntegersHaveNoPlaces(c: Config, form: Form, field: Field)
    requires field.data.IntValue? || field.data.BoolValue?
    ensures CallAsWritten(c, form, field) == Pass <==> c.min <= 0 && (c.max == Unset || 0 <= c.max)
    ensures Call(c, form, field) == Pass <==> c.min <= 0 && (c.max == Unset || 0 <= c.max)
  {
  }

  /** The constructor rejects the two configurations the test suite tries, and its own defaults. */
  lemma RejectedConfigurations()
    ensures New() == New(-1, -1) == Rejected(NoBoundGiven)
    ensures New(1, 0) == Rejected(MinAboveMax)
  {
  }

  /** 0.12 has two decimal places, so it passes (1,2), (2,-1), (2,2) and (-1,2), as written and as corrected. */
  lemma PassingBounds(form: Form, field: Field)
    requires field.data == FloatValue("0.12")
    ensures forall b :: b in [(1, 2), (2, -1), (2, 2), (-1, 2)] ==>
              && New(b.0, b.1).Built?
              && CallAsWritten(New(b.0, b.1).config, form, field) == Pass
              && Call(New(b.0, b.1).config, form, field) == Pass
  {
    PointTwelveHasTwoPlaces();
  }

  /** The message the test suite expects for the string "foo". */
  lemma UnsupportedTypeMessage(form: Form, field: Field)
    requires field.data == StrValue("foo")
    ensures Render(CallAsWritten(Config(3, -1, None), form, field).message)
            == Some("Data type \"<class 'str'>\" is not a supported.")
  {
    var t := TypeRepr(field.data);
    assert t == "<class 'str'>";
    assert "Data type \"" + t + "\" is not a supported." == "Data type \"<class 'str'>\" is not a supported.";
  }

  /** 0.12, printed "0.12", has two decimal places. */
  lemma PointTwelveHasTwoPlaces()
    ensures CountAsWritten(FloatValue("0.12")) == 2 && Count(FloatValue("0.12")) == 2
  {
    DigitsAfterPointSplit("0", "12");
    assert "0" + "." + "12" == "0.12";
    assert CountAsWritten(FloatValue("0.12")) == 2;
    assert !HasExponent("0.12") by {
      forall i | 0 <= i < |"0.12"|
        ensures !IsExponentMarker("0.12"[i])
      {
      }
    }
  }

  /** The message the test suite expects for 0.12 under (3,-1). */
  lemma AtLeastMessage(form: Form, field: Field)
    requires field.data == FloatValue("0.12")
    ensures Render(CallAsWritten(Config(3, -1, None), form, field).message) == Some("Number must have at least 3 decimal digits.")
  {
    PointTwelveHasTwoPlaces();
    var name := field.labelText;
    assert CallAsWritten(Config(3, -1, None), form, field) == Fail(WrongDigitCount(AtLeast(true), name, 3, -1));
    AtLeastText(name);
  }

  /** The message the test suite expects for 0.12 under (-1,1). */
  lemma AtMostMessage(form: Form, field: Field)
    requires field.data == FloatValue("0.12")
    ensures Render(CallAsWritten(Config(-1, 1, None), form, field).message) == Some("Number can have at most 1 decimal digit.")
  {
    PointTwelveHasTwoPlaces();
    var name := field.labelText;
    assert CallAsWritten(Config(-1, 1, None), form, field) == Fail(WrongDigitCount(AtMost(false), name, -1, 1));
    AtMostText(name);
  }

  /** The message the test suite expects for 0.12 under (3,3). */
  lemma ExactlyMessage(form: Form, field: Field)
    requires field.data == FloatValue("0.12")
    ensures Render(CallAsWritten(Config(3, 3, None), form, field).message) == Some("Number must have exactly 3 decimal digits.")
  {
    PointTwelveHasTwoPlaces();
    var name := field.labelText;
    assert CallAsWritten(Config(3, 3, None), form, field) == Fail(WrongDigitCount(Exactly(true), name, 3, 3));
    ExactlyText(name);
  }

  /** The message the test suite expects for 0.12 under (3,4). */
  lemma BetweenMessage(form: Form, field: Field)
    requires field.data == FloatValue("0.12")
    ensures Render(CallAsWritten(Config(3, 4, None), form, field).message) == Some("Number must have between 3 and 4 decimal digits.")
  {
    PointTwelveHasTwoPlaces();
    var name := field.labelText;
    assert CallAsWritten(Config(3, 4, None), form, field) == Fail(WrongDigitCount(Between, name, 3, 4));
    BetweenText(name);
  }

  /** The "at least" text for 3 in the plural. */
  lemma AtLeastText(name: string)
    ensures Render(WrongDigitCount(AtLeast(true), name, 3, -1))
            == Some("Number must have at least 3 decimal digits.")
  {
    assert IntToStr(3) == "3";
    assert "Number must have at least " + "3" == "Number must have at least 3";
    assert "Number must have at least 3" + " decimal digits." == "Number must have at least 3 decimal digits.";
  }

  /** The "at most" text for 1 in the singular. */
  lemma AtMostText(name: string)
    ensures Render(WrongDigitCount(AtMost(false), name, -1, 1))
            == Some("Number can have at most 1 decimal digit.")
  {
    assert IntToStr(1) == "1";
    assert "Number can have at most " + "1" == "Number can have at most 1";
    assert "Number can have at most 1" + " decimal digit." == "Number can have at most 1 decimal digit.";
  }

  /** The "exactly" text for 3 in the plural. */
  lemma ExactlyText(name: string)
    ensures Render(WrongDigitCount(Exactly(true), name, 3, 3))
            == Some("Number must have exactly 3 decimal digits.")
  {
    assert IntToStr(3) == "3";
    assert "Number must have exactly " + "3" == "Number must have exactly 3";
    assert "Number must have exactly 3" + " decimal digits." == "Number must have exactly 3 decimal digits.";
  }

  /** The "between" text for 3 and 4. */
  lemma BetweenText(name: string)
    ensures Render(WrongDigitCount(Between, name, 3, 4))
            == Some("Number must have between 3 and 4 decimal digits.")
  {
    assert IntToStr(3) == "3";
    assert IntToStr(4) == "4";
    assert "Number must have between " + "3" == "Number must have between 3";
    assert "Number must have between 3" + " and " == "Number must have between 3 and ";
    assert "Number must have between 3 and " + "4" == "Number must have between 3 and 4";
    assert "Number must have between 3 and 4" + " decimal digits." == "Number must have between 3 and 4 decimal digits.";
  }
}
