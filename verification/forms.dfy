/**
  The objects the validators receive from the form library, reduced to what
  they read: a field's parsed `data`, its `raw_data`, the text of its label
  and its `errors` list; a form as a mapping from field names to fields; and
  the two signals a validator can raise, as an outcome value.
 */
module Forms {
  import opened Options
  import opened PyText

  /** One submitted raw value: text, or some other object (an uploaded file, say). */
  datatype RawItem = Text(text: string) | Opaque(typeName: string)

  /**
    A field's parsed value. Python's `str()` of a float or Decimal is
    floating-point formatting, so those values are given by the text
    `str()` produces for them.
   */
  datatype Data =
    | IntValue(value: int)
    | BoolValue(flag: bool)
    | FloatValue(repr: string)
    | DecimalValue(repr: string)
    | StrValue(text: string)
    | NoneValue
    | OtherValue(typeName: string, truthy: bool)

  datatype Field = Field(data: Data, rawData: seq<RawItem>, labelText: string, errors: seq<string>)

  /** A form, looked up by field name; a missing name is Python's `KeyError`. */
  type Form = map<string, Field>

  /** The wording of a wrong-digit-count failure: one of the default templates, or the configured one. */
  datatype DigitsWording =
    | AtLeast(plural: bool)
    | AtMost(plural: bool)
    | Exactly(plural: bool)
    | Between
    | CustomDigits(template: string)

  /**
    A failure message: the template chosen (`custom` is the configured
    template, `None` the default one) and the arguments it is formatted with.
   */
  datatype Message =
    | UnsupportedType(typeRepr: string)
    | WrongDigitCount(wording: DigitsWording, fieldName: string, min: int, max: int)
    | InvalidFieldName(fieldName: string)
    | UnequalState(custom: Option<string>, fieldName: string, otherFieldName: string)
    | RequiredFor(custom: Option<string>, fieldName: string, cbxName: string)

  /**
    What a validator call ends in: it returns normally (`Pass`), raises
    `ValidationError(message)` (`Fail`), or raises `StopValidation()` with no
    message, which ends the field's validation chain silently (`Halt`).
   */
  datatype Outcome = Pass | Fail(message: Message) | Halt

  /** An outcome together with the validated field as the call leaves it. */
  datatype Step = Step(outcome: Outcome, field: Field)

  /** The classes `isinstance(data, (int, float, Decimal))` admits; `bool` is a subclass of `int`. */
  const NumberClasses: set<string> := {"int", "bool", "float", "decimal.Decimal"}

  /** The qualified name of the class of `d`, as `str(type(d))` shows it. */
  function ClassName(d: Data): string {
    match d
    case IntValue(_) => "int"
    case BoolValue(_) => "bool"
    case FloatValue(_) => "float"
    case DecimalValue(_) => "decimal.Decimal"
    case StrValue(_) => "str"
    case NoneValue => "NoneType"
    case OtherValue(n, _) => n
  }

  /** `isinstance(data, (int, float, Decimal))`: the data belongs to one of the number classes. */
  function IsNumber(d: Data): (b: bool)
    ensures b ==> ClassName(d) in NumberClasses
    ensures !d.OtherValue? ==> (b <==> ClassName(d) in NumberClasses)
  {
    d.IntValue? || d.BoolValue? || d.FloatValue? || d.DecimalValue?
  }

  /** `str(data)` for a number. */
  function NumberText(d: Data): (s: string)
    requires IsNumber(d)
    ensures (d.IntValue? || d.BoolValue?) ==> '.' !in s
    ensures d.IntValue? ==> !HasExponent(s)
  {
    match d
    case IntValue(v) => IntToStr(v)
    case BoolValue(b) => if b then "True" else "False"
    case FloatValue(t) => t
    case DecimalValue(t) => t
  }

  /** `str(type(data))`: the class name between `<class '` and `'>`. */
  function TypeRepr(d: Data): (r: string)
    ensures |r| == |ClassName(d)| + 10
    ensures r[..8] == "<class '" && r[8..|r| - 2] == ClassName(d) && r[|r| - 2..] == "'>"
  {
    "<class '" + ClassName(d) + "'>"
  }

  /** The unsupported-type message tells classes apart: two data give the same text exactly when their classes have the same name. */
  lemma TypeReprNamesClass(a: Data, b: Data)
    ensures TypeRepr(a) == TypeRepr(b) <==> ClassName(a) == ClassName(b)
  {
  }

  /** A numeral without its leading sign. */
  function Unsigned(t: string): (u: string)
    ensures |u| <= |t| && u == t[|t| - |u|..]
  {
    if |t| > 0 && (t[0] == '-' || t[0] == '+') then t[1..] else t
  }

  /** A mantissa of value zero: some zero digit, and nothing but zeros and a point. */
  predicate ZeroMantissa(m: string) {
    && '0' in m
    && forall i :: 0 <= i < |m| ==> m[i] == '0' || m[i] == '.'
  }

  /** A float or Decimal numeral of value zero, whatever its sign and exponent. */
  predicate ZeroNumeral(t: string) {
    ZeroMantissa(Mantissa(Unsigned(t)))
  }

  /**
    Python truthiness of a field's data, as in `not checkbox.data`: a bool
    is the int 0 or 1, text is true when it is non-empty, `None` is false.
   */
  function Truthy(d: Data): (b: bool)
    ensures d.IntValue? ==> (b <==> IntToStr(d.value) != "0")
    ensures d.BoolValue? ==> (b <==> NumberText(d) == "True")
    ensures d.StrValue? ==> (b <==> |d.text| > 0)
    ensures d.NoneValue? ==> !b
  {
    match d
    case IntValue(v) => v != 0
    case BoolValue(b) => b
    case FloatValue(t) => !ZeroNumeral(t)
    case DecimalValue(t) => !ZeroNumeral(t)
    case StrValue(s) => s != []
    case NoneValue => false
    case OtherValue(_, truthy) => truthy
  }

  /**
    A float or Decimal is false exactly when the digits of its mantissa are
    all zeros; its sign and its exponent play no part.
   */
  lemma ZeroWhateverSignAndExponent(sign: string, m: string, exp: string)
    requires sign == "" || sign == "-" || sign == "+"
    requires !HasExponent(m) && (|m| > 0 ==> m[0] != '-' && m[0] != '+')
    requires |exp| > 0 ==> IsExponentMarker(exp[0])
    ensures !Truthy(FloatValue(sign + m + exp)) <==> ZeroMantissa(m)
    ensures Truthy(DecimalValue(sign + m + exp)) == Truthy(FloatValue(sign + m + exp)) == Truthy(FloatValue(m))
  {
    ZeroNumeralOfParts(sign, m, exp);
    ZeroNumeralOfParts("", m, "");
    assert "" + m + "" == m;
  }

  /** The zero test reads only the mantissa digits between the sign and the exponent. */
  lemma ZeroNumeralOfParts(sign: string, m: string, exp: string)
    requires sign == "" || sign == "-" || sign == "+"
    requires !HasExponent(m) && (|m| > 0 ==> m[0] != '-' && m[0] != '+')
    requires |exp| > 0 ==> IsExponentMarker(exp[0])
    ensures ZeroNumeral(sign + m + exp) <==> ZeroMantissa(m)
  {
    assert sign + m + exp == sign + (m + exp);
    UnsignedDropsSign(sign, m + exp);
    MantissaBeforeMarker(m, exp);
  }

  /** Removing a sign `sign` from `sign + u`, when `u` starts without one, leaves `u`. */
  lemma UnsignedDropsSign(sign: string, u: string)
    requires sign == "" || sign == "-" || sign == "+"
    requires |u| > 0 ==> u[0] != '-' && u[0] != '+'
    ensures Unsigned(sign + u) == u
  {
    if sign == "" {
      assert sign + u == u;
    } else {
      assert (sign + u)[1..] == u;
    }
  }

  /** The mantissa of `m + exp`, where `exp` is empty or starts with the first exponent marker, is `m`. */
  lemma MantissaBeforeMarker(m: string, exp: string)
    requires !HasExponent(m)
    requires |exp| > 0 ==> IsExponentMarker(exp[0])
    ensures Mantissa(m + exp) == m
  {
    if |exp| > 0 {
      assert m + exp == m + [exp[0]] + exp[1..];
      ExponentIndexAfter(m, exp[0], exp[1..]);
      assert (m + exp)[..|m|] == m;
    } else {
      assert m + exp == m;
    }
  }

  /** A float zero is false. */
  lemma FloatZeroIsFalse()
    ensures !Truthy(FloatValue("0.0"))
  {
    assert Unsigned("0.0") == "0.0" && !HasExponent("0.0");
  }

  /** A negative float zero is false too. */
  lemma NegativeZeroIsFalse()
    ensures !Truthy(FloatValue("-0.0"))
  {
    assert Unsigned("-0.0") == "0.0" && !HasExponent("0.0");
  }

  /** A Decimal zero with an exponent is false. */
  lemma DecimalZeroIsFalse()
    ensures !Truthy(DecimalValue("0E-7"))
  {
    assert Unsigned("0E-7") == "0E-7";
    assert "0E-7"[1] == 'E';
    assert ExponentIndex("0E-7") == 1;
    assert Mantissa("0E-7") == "0";
  }

  /** NaN is true. */
  lemma NanIsTrue()
    ensures Truthy(FloatValue("nan"))
  {
    assert Unsigned("nan") == "nan" && !HasExponent("nan");
    assert Mantissa("nan")[0] == 'n';
  }

  /** A nonzero float in scientific notation is true. */
  lemma TinyFloatIsTrue()
    ensures Truthy(FloatValue("1e-05"))
  {
    assert Unsigned("1e-05") == "1e-05";
    assert "1e-05"[1] == 'e';
    assert ExponentIndex("1e-05") == 1;
    assert Mantissa("1e-05") == "1";
  }

  /** A nonzero Decimal with leading and trailing zeros is true. */
  lemma NonzeroDecimalIsTrue()
    ensures Truthy(DecimalValue("0.010"))
  {
    assert Unsigned("0.010") == "0.010" && !HasExponent("0.010");
    assert Mantissa("0.010")[3] == '1';
  }

  /** The untranslated `ngettext` fallback picks the plural form for every count but one. */
  predicate Plural(n: int) {
    n != 1
  }

  /** `field.errors[:] = []`: the field with an empty error list and nothing else changed. */
  function ClearErrors(f: Field): (g: Field)
    ensures g.errors == []
    ensures g.(errors := f.errors) == f
  {
    f.(errors := [])
  }

  /**
    A field's raw input counts as blank when nothing was submitted or the
    first submitted value is text made only of whitespace.
   */
  predicate BlankInput(raw: seq<RawItem>) {
    |raw| == 0 || (raw[0].Text? && AllSpace(raw[0].text))
  }

  /** A template `str.format` would change: one holding a replacement field or an escaped brace. */
  predicate HasPlaceholders(template: string) {
    '{' in template || '}' in template
  }

  function Plain(template: string): (r: Option<string>)
    ensures r.Some? <==> !HasPlaceholders(template)
    ensures r.Some? ==> r.value == template
  {
    if HasPlaceholders(template) then None else Some(template)
  }

  function DigitsNoun(plural: bool): string {
    if plural then " decimal digits." else " decimal digit."
  }

  /**
    The text a message formats to. Default templates always render; a
    configured template renders only when it has no placeholders, since
    `str.format` leaves such a template as it is.
   */
  function Render(m: Message): (r: Option<string>)
    ensures m.WrongDigitCount? && m.wording.CustomDigits? ==> (r.None? <==> HasPlaceholders(m.wording.template))
    ensures (m.UnequalState? || m.RequiredFor?) && m.custom.Some? ==> (r.None? <==> HasPlaceholders(m.custom.value))
    ensures m.UnsupportedType? || m.InvalidFieldName? ==> r.Some?
    ensures m.WrongDigitCount? && !m.wording.CustomDigits? ==> r.Some?
    ensures (m.UnequalState? || m.RequiredFor?) && m.custom.None? ==> r.Some?
  {
    match m
    case UnsupportedType(t) => Some("Data type \"" + t + "\" is not a supported.")
    case WrongDigitCount(wording, _, min, max) =>
      (match wording
      case AtLeast(p) => Some("Number must have at least " + IntToStr(min) + DigitsNoun(p))
      case AtMost(p) => Some("Number can have at most " + IntToStr(max) + DigitsNoun(p))
      case Exactly(p) => Some("Number must have exactly " + IntToStr(max) + DigitsNoun(p))
      case Between => Some("Number must have between " + IntToStr(min) + " and " + IntToStr(max) + " decimal digits.")
      case CustomDigits(t) => Plain(t))
    case InvalidFieldName(n) => Some("Invalid field name '" + n + "'.")
    case UnequalState(custom, f, o) =>
      (match custom
       case Some(t) => Plain(t)
       case None => Some("'" + f + "' and '" + o + "' must be of equal state."))
    case RequiredFor(custom, f, c) =>
      match custom
      case Some(t) => Plain(t)
      case None => Some("'" + f + "' is required for '" + c + "'.")
  }

  /** The fields the test suite works with: checkboxes ticked and unticked, inputs filled and empty. */
  function TickedCheckbox(): Field {
    Field(BoolValue(true), [Text("y")], "Checkbox_true", [])
  }

  function UntickedCheckbox(): Field {
    Field(BoolValue(false), [], "Checkbox_false", [])
  }

  function FilledInput(): Field {
    Field(StrValue("foobar"), [Text("foobar")], "Input_filled", [])
  }

  function EmptyInput(): Field {
    Field(BoolValue(false), [], "Input_empty", [])
  }
}
