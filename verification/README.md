# WTForms-Validators in Dafny

This project models the three validators of WTForms-Validators. Each is a callable a WTForms
validation chain invokes with `(form, field)`:

- `DecimalDigits(min, max, message)` bounds the number of digits after the decimal point of
  a number. A bound of -1 is unset.
- `EqualStateTo(other_field_name, message)` requires the field and another field to be both
  filled or both empty.
- `InputRequiredIfCheckbox(checkbox_name, message, strip_whitespace)` requires input while a
  checkbox is ticked. It silently stops the chain while the checkbox is unticked.

Each validator is a pure function of its configuration, the form and the field. It returns
an `Outcome`:

- `Pass`: the call returns normally.
- `Fail(message)`: the call raises `ValidationError`.
- `Halt`: the call raises `StopValidation` with no message.

The two validators that run `field.errors[:] = []` also return the field as the call leaves
it, in a `Step`.

A `Message` records which template was chosen and the arguments it is formatted with.
`Forms.Render` gives the text of every default template. It also renders a configured
template that holds no braces, since `str.format` leaves such a template unchanged.

Files and modules:

- `options.dfy` (`Options`): the option type that stands in for `None` defaults.
- `pytext.dfy` (`PyText`): the Python string built-ins the validators use:
  - `str.isspace` and `str.strip`;
  - `str.index`;
  - `str(int)`, with its inverse;
  - the exponent marker of a float or Decimal numeral.
- `forms.dfy` (`Forms`): the data model:
  - fields, forms and field data;
  - Python truthiness and `isinstance(data, (int, float, Decimal))`;
  - messages, outcomes and message rendering;
  - the fields the test suite uses.
- `decimal_digits.dfy`, `equal_state_to.dfy`, `input_required_if_checkbox.dfy`: one module
  per validator class.

Where the code and its prose disagree, the model follows the code:

- The `strip_whitespace` docstring says whitespace-only input "stops the validation chain".
  The code raises `ValidationError` in that case (lines 140-147), so the model returns `Fail`.
- A field is empty when its raw data is empty or its FIRST raw value is whitespace-only text.
  Further raw values are never looked at (lines 92 and 96).

## Model

| member | source | states |
|---|---|---|
| PyText.SpaceCharacters | wtforms_validators.py:92 | The characters `strip` removes: on ASCII exactly blank, `\t \n \v \f \r` and 0x1c-0x1f; beyond ASCII exactly U+0085, U+00A0, U+1680, U+2000-U+200A, U+2028, U+2029, U+202F, U+205F and U+3000; never NUL or anything above U+3000. |
| PyText.Strip | wtforms_validators.py:92 | `s.strip()` keeps a piece that neither starts nor ends with whitespace. It is empty exactly when `s` is all whitespace. |
| PyText.StripKeepsInfix | wtforms_validators.py:126 | What `strip` keeps is one contiguous piece of the text, with only whitespace before and after it. |
| PyText.IndexOf | wtforms_validators.py:46 | `s.index(c)` needs `c in s`. It returns the first position holding `c`. |
| PyText.IntToStr | wtforms_validators.py:45 | `str(i)` of an int never contains a point or an exponent marker. Every int is printed, with no digit limit (see Left out). |
| PyText.ParseNatToStr | wtforms_validators.py:45 | Reading back the decimal numeral printed for a natural number gives the number. |
| PyText.IntToStrRoundTrip | wtforms_validators.py:45 | `int(str(i)) == i` for every integer, negatives included, setting aside the interpreter's digit limit. |
| Forms.IsNumber | wtforms_validators.py:43 | `isinstance(data, (int, float, Decimal))` admits exactly the classes int, bool, float and decimal.Decimal. |
| Forms.TypeRepr | wtforms_validators.py:44 | `str(type(data))` is the class name wrapped in `<class '` and `'>`. |
| Forms.TypeReprNamesClass | wtforms_validators.py:44 | Two data give the same unsupported-type text iff their classes have the same name. |
| Forms.NumberText | wtforms_validators.py:45 | `str(data)` of an int or bool has no point, and that of an int has no exponent. |
| Forms.ClearErrors | wtforms_validators.py:105 | `field.errors[:] = []` empties the error list and changes nothing else. |
| Forms.Plain | wtforms_validators.py:66 | A configured template without braces formats to itself. One with braces is not rendered. |
| Forms.Render | wtforms_validators.py:44-66 | Every default template renders, as do configured templates without placeholders. The other default texts are at lines 89, 103 and 144. |
| Forms.Truthy | wtforms_validators.py:136 | `not checkbox.data`: an int is false iff it prints as "0", a bool iff it prints as "False", text iff it is empty; `None` is false. |
| Forms.ZeroWhateverSignAndExponent | wtforms_validators.py:136 | A float or Decimal is false iff its mantissa digits are all zeros, whatever its sign and exponent. |
| Forms.FloatZeroIsFalse | wtforms_validators.py:136 | `not checkbox.data` holds for the float 0.0. |
| Forms.NegativeZeroIsFalse | wtforms_validators.py:136 | It also holds for -0.0. |
| Forms.DecimalZeroIsFalse | wtforms_validators.py:136 | It also holds for `Decimal("0E-7")`. |
| Forms.NanIsTrue | wtforms_validators.py:136 | NaN counts as ticked. |
| Forms.TinyFloatIsTrue | wtforms_validators.py:136 | 1e-05 counts as ticked, although its numeral is scientific. |
| Forms.NonzeroDecimalIsTrue | wtforms_validators.py:136 | `Decimal("0.010")` counts as ticked. |
| DecimalDigits.New | wtforms_validators.py:34-39 | With assertions enabled, construction succeeds iff some bound is set and `min <= max` whenever `max` is set. (-1,-1) is rejected by the first assertion. Both bounds default to -1, the message to none. |
| DecimalDigits.RejectedConfigurations | tests/test_wtf_validators.py:19-25 | (-1,-1), which is also the default, and (1,0) are rejected, each by its own assertion. |
| DecimalDigits.DigitsAfterPoint | wtforms_validators.py:45-46 | The count as written: 0 without a `.`. Otherwise the `r` characters after the first `.`, so `r <= len(s) - 1`. |
| DecimalDigits.DigitsAfterPointSplit | wtforms_validators.py:46 | For `a + "." + b` with no point in `a`, the count is `len(b)`. |
| DecimalDigits.DecimalPlaces | wtforms_validators.py:45-46 | The corrected count. It equals the as-written count on every numeral without an exponent. |
| DecimalDigits.DecimalPlacesScientific | wtforms_validators.py:45-46 | For a mantissa `m` and exponent `±k`, the corrected count is the places of `m` minus the exponent, floored at 0. |
| DecimalDigits.TinyFloatMiscounted | wtforms_validators.py:45-46 | The as-written count gives 0 for "1e-05" (0.00001). The corrected count gives 5. |
| DecimalDigits.SmallFloatMiscounted | wtforms_validators.py:45-46 | The as-written count gives 5 for "1.5e-07". The corrected count gives 8. |
| DecimalDigits.CountAsWritten | wtforms_validators.py:45-46 | The count of `str(data)` as written: 0 for an int or bool, and for a float or Decimal printed without a point; otherwise the characters after its first point. |
| DecimalDigits.Count | wtforms_validators.py:42-46 | The corrected count: an int or bool has 0 places, and a number printed without an exponent has exactly the as-written count. |
| DecimalDigits.Within | wtforms_validators.py:48 | With `max` unset a count passes iff it reaches `min`; with `min` unset iff it does not exceed `max`; with equal bounds iff it equals them; with both set iff `min <= n <= max`. Passing counts are closed downwards to `min`. |
| DecimalDigits.DefaultWording | wtforms_validators.py:50-64 | Each default wording names only bounds that are set: "at least" iff `max` is unset, "at most" only with `min` unset, "exactly" only for equal bounds, "between" only for two different set bounds; the singular goes with a bound of 1. |
| DecimalDigits.Wording | wtforms_validators.py:49-50 | A configured message always wins. Without one, a default wording is chosen. |
| DecimalDigits.CallAsWritten | wtforms_validators.py:41-66 | Non-numbers fail with the unsupported-type message. A number passes iff its as-written count is `>= min` and (`max` unset or `<= max`). Otherwise it fails with the label and both bounds. It never halts. |
| DecimalDigits.Call | wtforms_validators.py:41-66 | The corrected validator: as `CallAsWritten`, with the number's decimal places counted exponent included. |
| DecimalDigits.CallsAgreeWithoutExponent | wtforms_validators.py:45-48 | On non-numbers, on bools, and on every int, float or Decimal printed without an exponent, the corrected validator returns what the code as written returns. |
| DecimalDigits.TinyFloatRejectedAsWritten | wtforms_validators.py:45-54 | As written, 0.00001 under `min=1` fails with "at least 1"; corrected, it passes. |
| DecimalDigits.SmallFloatAcceptedAsWritten | wtforms_validators.py:45-48 | As written, 1.5e-07 under `max=6` passes; corrected, it fails. |
| DecimalDigits.UnsupportedTypeIgnoresConfig | wtforms_validators.py:43-44 | A non-number fails identically whatever the bounds, message or form, as written and corrected. |
| DecimalDigits.UnsetMinNeverFires | wtforms_validators.py:48 | With `min` = -1, a number fails iff `max` is set and exceeded by its count, as written and corrected. |
| DecimalDigits.DefaultWordingChoice | wtforms_validators.py:51-64 | For every configuration, order of default wordings: `max` unset gives "at least", `min` unset "at most", equal bounds "exactly", otherwise "between". The singular is used only for a bound of 1. Holds as written and corrected. |
| DecimalDigits.WiderBoundsKeepPass | wtforms_validators.py:48 | Loosening either bound never turns a pass into a failure, as written and corrected. |
| DecimalDigits.IntegersHaveNoPlaces | wtforms_validators.py:43-46 | An int or bool passes iff the bounds admit 0 places, as written and corrected. |
| DecimalDigits.PassingBounds | tests/test_wtf_validators.py:10-17 | 0.12 passes (1,2), (2,-1), (2,2) and (-1,2), as written and as corrected, each admitted by the constructor. |
| DecimalDigits.PointTwelveHasTwoPlaces | tests/test_wtf_validators.py:15 | 0.12 has 2 places. |
| DecimalDigits.UnsupportedTypeMessage | tests/test_wtf_validators.py:31-34 | "foo" fails with `Data type "<class 'str'>" is not a supported.` |
| DecimalDigits.AtLeastMessage | tests/test_wtf_validators.py:35 | 0.12 under (3,-1) gives "Number must have at least 3 decimal digits." |
| DecimalDigits.AtMostMessage | tests/test_wtf_validators.py:36 | 0.12 under (-1,1) gives "Number can have at most 1 decimal digit." |
| DecimalDigits.ExactlyMessage | tests/test_wtf_validators.py:37 | 0.12 under (3,3) gives "Number must have exactly 3 decimal digits." |
| DecimalDigits.BetweenMessage | tests/test_wtf_validators.py:38-42 | 0.12 under (3,4) gives "Number must have between 3 and 4 decimal digits." |
| DecimalDigits.AtLeastText | wtforms_validators.py:52-54 | Text of the plural "at least" template with min 3. |
| DecimalDigits.AtMostText | wtforms_validators.py:56-58 | Text of the singular "at most" template with max 1. |
| DecimalDigits.ExactlyText | wtforms_validators.py:60-62 | Text of the plural "exactly" template with max 3. |
| DecimalDigits.BetweenText | wtforms_validators.py:64 | Text of the "between" template with 3 and 4. |
| EqualStateTo.IsEmpty | wtforms_validators.py:91-97 | Empty iff there is no raw data, or the first raw value is text made only of whitespace. A non-text first raw value is not empty. |
| EqualStateTo.New | wtforms_validators.py:81-83 | The constructor keeps its arguments; the message defaults to none. |
| EqualStateTo.Call | wtforms_validators.py:85-106 | A missing other field fails with the invalid-name message and leaves the field alone. Otherwise the call fails iff exactly one of the two fields is blank. A failure carries both labels and clears the errors; a pass changes nothing. |
| EqualStateTo.InvalidNameIgnoresMessage | wtforms_validators.py:86-89 | The invalid-name failure is the same whatever message is configured. |
| EqualStateTo.Symmetric | wtforms_validators.py:99 | Validating `a` against `b` fails iff validating `b` against `a` fails. |
| EqualStateTo.SameRawDataPasses | wtforms_validators.py:99 | Against a field with the same raw data, including the field itself, the call passes and changes nothing. |
| EqualStateTo.OnlyFirstRawValueMatters | wtforms_validators.py:92-97 | Raw values after the first never change the outcome. |
| EqualStateTo.TickedAgainstTicked | tests/test_wtf_validators.py:61-67 | A ticked checkbox against itself stored as "foo" passes unchanged. |
| EqualStateTo.UntickedAgainstTicked | tests/test_wtf_validators.py:90-100 | Unticked against ticked fails with both labels, or with the configured message, and drops prior errors. |
| EqualStateTo.MisnamedField | tests/test_wtf_validators.py:82 | Naming "fo" fails with the invalid-name message whatever message is configured. |
| EqualStateTo.FailureTexts | tests/test_wtf_validators.py:79-88 | The texts "Invalid field name 'fo'.", "'Checkbox_false' and 'Checkbox_true' must be of equal state." and "foo". |
| InputRequiredIfCheckbox.New | wtforms_validators.py:122-124 | The constructor keeps its arguments. The defaults are no message and stripping on. |
| InputRequiredIfCheckbox.StrCheck | wtforms_validators.py:125-128 | `str_check` leaves nothing iff the text is all whitespace (stripping on) or empty (stripping off). |
| InputRequiredIfCheckbox.InputAbsent | wtforms_validators.py:140 | With stripping on, no input iff the raw data is blank; with it off, iff there is no raw data or the first raw value is "". |
| InputRequiredIfCheckbox.Call | wtforms_validators.py:130-147 | Checkbox missing: fail with invalid name, errors untouched. Unticked: clear errors and halt. Ticked, no input: clear errors and fail naming both labels. Ticked with input: pass, field unchanged. |
| InputRequiredIfCheckbox.OutcomeByState | wtforms_validators.py:131-147 | Fail iff checkbox missing or input missing; Halt iff unticked; Pass iff input present. The field changes only on halt or missing input. |
| InputRequiredIfCheckbox.UntickedHaltsWhateverTheInput | wtforms_validators.py:136-138 | An unticked checkbox halts whatever the field holds, filled input included. |
| InputRequiredIfCheckbox.WhitespaceOnlyInput | wtforms_validators.py:125-128 | With the checkbox ticked, whitespace-only text fails iff stripping is on. With stripping off it passes unchanged. |
| InputRequiredIfCheckbox.StrippedMatchesEqualState | wtforms_validators.py:140 | With stripping on and the checkbox ticked, the call fails iff `EqualStateTo` would call the field empty. |
| InputRequiredIfCheckbox.CheckboxCases | tests/test_wtf_validators.py:106-148 | Ticked with filled input passes; unticked halts. Ticked with empty input fails with both labels. "fo" fails with the invalid-name message. |
| InputRequiredIfCheckbox.RequiredText | tests/test_wtf_validators.py:130-135 | The texts "'Input_empty' is required for 'Checkbox_true'." and "foo". |

## Findings

| source | as written | input that shows it | evidently intended | confidence | as-written member | corrected member |
|---|---|---|---|---|---|---|
| wtforms_validators.py:45-46 | The count is the number of characters after the first `.` of `str(data)`. Python prints floats below 1e-4 (and from 1e16 up) in scientific notation. Decimal does the same for small exponents ("1E-7"). The exponent's characters are then counted, or the places are lost. | `DecimalDigits(min=1)` on 0.00001: `str` gives "1e-05", the count is 0, and the call fails with "at least 1". 1.5e-07 is counted as 5 places instead of 8. | Count the decimal places of the value: the places of the mantissa minus the exponent, never below 0. | high; not executed | DecimalDigits.CallAsWritten over DecimalDigits.DigitsAfterPoint, exhibited by DecimalDigits.TinyFloatRejectedAsWritten, DecimalDigits.SmallFloatAcceptedAsWritten, DecimalDigits.TinyFloatMiscounted and DecimalDigits.SmallFloatMiscounted | DecimalDigits.Call over DecimalDigits.DecimalPlaces, proved by DecimalDigits.DecimalPlacesScientific |

`DecimalDigits.CallAsWritten` is the validator as written. `DecimalDigits.Call` uses the corrected count, and `DecimalDigits.CallsAgreeWithoutExponent` proves the two agree on every input except a float or Decimal whose numeral has an `e`/`E`. That covers every int and bool (the `e` of "True" and "False" is no exponent, and a bool counts 0 places either way), and every float and Decimal that Python prints positionally.

## Left out

- Translation: the optional `flask_babelex` import and its fallbacks (lines 3-11). Messages are untranslated, and the plural form is used for every count except 1 (`Forms.Plural`).
- `str()` of a float or Decimal is floating-point formatting, so it is taken as input (`FloatValue(repr)`, `DecimalValue(repr)`). `str()` of an int or bool is computed.
- The truthiness of an arbitrary object (`__bool__` / `__len__`) is taken as input (`OtherValue(typeName, truthy)`).
- Subclasses of int, float or Decimal are modelled as those types. Other classes appear only through their qualified name.
- `str.format` of a configured template that holds placeholders: `Forms.Render` returns no text for it. The arguments it would be formatted with are kept in the `Message`.
- DecimalDigits.Call: corrects the count of line 46 for numbers printed with an exponent (see Findings); `DecimalDigits.CallAsWritten` is the code as written.
- PyText.IntToStr: prints every int. From Python 3.11 (and in the 3.7.14, 3.8.14, 3.9.14 and 3.10.7 patch releases), `str()` of an int with more digits than the interpreter's limit (4300 by default) raises `ValueError`. So for such an int `DecimalDigits.CallAsWritten` and `DecimalDigits.Call` return an outcome where line 45 raises.
- DecimalDigits.New: assumes Python runs with assertions enabled. Lines 35-36 check the configuration with `assert`, which `python -O` (or `PYTHONOPTIMIZE`) removes. Under those flags the constructor never rejects: `DecimalDigits()` builds and then passes every number, since neither bound is checked; `DecimalDigits(1, 0)` builds and then fails every number with the "between 1 and 0" wording. The model returns `Rejected` for both.
- DecimalDigits.Count: counts the places of the value, exponent included, where line 46 counts characters after the point; `DecimalDigits.CountAsWritten` is line 46.
- DecimalDigits.Call: `Fail` stands for `ValidationError` only when `str.format` accepts the configured template (line 66). A template it rejects ("{foo}" raises `KeyError`, a lone "{" `ValueError`, "{0}" `IndexError`) makes the call raise that exception instead; the model still returns `Fail`. The same holds for `DecimalDigits.CallAsWritten`.
- EqualStateTo.Call: likewise, `Fail` is the outcome only when `str.format` accepts the configured template (line 106). Otherwise the call raises the formatting exception after it has already cleared the field's errors (line 105).
- InputRequiredIfCheckbox.Call: likewise for line 147. Otherwise the call raises the formatting exception after it has already cleared the field's errors (line 146).
- The wtforms exception classes and `string_types` (lines 13-14): they become the `Outcome` type and the `Text` raw item.
- The label is modelled as its text (`field.label.text`). The `AttributeError` raised for a label without `.text` is not modelled. The test fixtures set `label` to a plain string (tests/conftest.py lines 19, 28, 37 and 46; tests/test_wtf_validators.py line 52). So on exactly the failing test cases whose message takes the field's label, the code as written reads `.text` of a `str` and raises `AttributeError`, not the `ValidationError` the tests expect. The message lemmas (`DecimalDigits.AtLeastMessage` to `BetweenMessage`, `EqualStateTo.UntickedAgainstTicked` and `FailureTexts`, `InputRequiredIfCheckbox.CheckboxCases` and `RequiredText`) hold for a label object whose `.text` is that string.
- Aliasing: the model returns only the validated field. When that field object is also stored in the form, Python's in-place `errors[:] = []` shows through the form as well.
- Idempotence needs no lemma: every validator is a pure function, so equal inputs give equal outcomes.
- `tests/conftest.py` (fixtures) and `__init__.py` (package metadata). The four fields the tests use are restated in `Forms`.
