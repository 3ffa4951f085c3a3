/**
  The `InputRequiredIfCheckbox` validator: when a named checkbox is ticked the
  field must have input; when it is not ticked the field's validation chain
  stops silently.
 */
module InputRequiredIfCheckbox {
  import opened Options
  import opened PyText
  import opened Forms
  import EqualStateTo

  datatype Config = Config(checkboxName: string, message: Option<string>, stripWhitespace: bool)

  /** `InputRequiredIfCheckbox(checkbox_name, message=None, strip_whitespace=True)`. */
  function New(checkboxName: string, message: Option<string> := None, stripWhitespace: bool := true): (c: Config)
    ensures c.checkboxName == checkboxName && c.message == message && c.stripWhitespace == stripWhitespace
  {
    Config(checkboxName, message, stripWhitespace)
  }

  /**
    The configured `str_check`: the text stripped, or the text as it is.
    Either way it leaves nothing exactly when the text counts as no input.
   */
  function StrCheck(c: Config, s: string): (r: string)
    ensures r == [] <==> if c.stripWhitespace then AllSpace(s) else s == []
  {
    if c.stripWhitespace then Strip(s) else s
  }

  /**
    The field has no input: no raw data, or a first raw value that is text
    and is empty (all whitespace, when whitespace is stripped). A first raw
    value that is not text is input.
   */
  function InputAbsent(stripWhitespace: bool, raw: seq<RawItem>): (b: bool)
    ensures stripWhitespace ==> (b <==> BlankInput(raw))
    ensures !stripWhitespace ==> (b <==> |raw| == 0 || raw[0] == Text(""))
    ensures BlankInput(raw) ==> (b <==> stripWhitespace || |raw| == 0 || raw[0] == Text(""))
  {
    || |raw| == 0
    || (raw[0].Text? && if stripWhitespace then AllSpace(raw[0].text) else raw[0].text == [])
  }

  /**
    `InputRequiredIfCheckbox.__call__`: a missing checkbox fails with the
    invalid-name message and leaves the field alone; an unticked checkbox
    clears the field's errors and halts the chain; a ticked one with no input
    clears the errors and fails naming the field and the checkbox; a ticked
    one with input passes and leaves the field as it was.
   */
  function Call(c: Config, form: Form, field: Field): (r: Step)
    ensures c.checkboxName !in form ==> r == Step(Fail(InvalidFieldName(c.checkboxName)), field)
    ensures c.checkboxName in form && !Truthy(form[c.checkboxName].data) ==>
              r == Step(Halt, ClearErrors(field))
    ensures c.checkboxName in form && Truthy(form[c.checkboxName].data) ==>
              if InputAbsent(c.stripWhitespace, field.rawData)
              then r == Step(Fail(RequiredFor(c.message, field.labelText, form[c.checkboxName].labelText)),
                             ClearErrors(field))
              else r == Step(Pass, field)
  {
    if c.checkboxName !in form then
      Step(Fail(InvalidFieldName(c.checkboxName)), field)
    else
      var checkbox := form[c.checkboxName];
      if !Truthy(checkbox.data) then
        Step(Halt, ClearErrors(field))
      else if |field.rawData| == 0 || (field.rawData[0].Text? && StrCheck(c, field.rawData[0].text) == []) then
        Step(Fail(RequiredFor(c.message, field.labelText, checkbox.labelText)), ClearErrors(field))
      else
        Step(Pass, field)
  }

  /** The states one call can end in. */
  datatype State = CheckboxMissing | CheckboxUnset | InputMissing | InputPresent

  function StateOf(c: Config, form: Form, field: Field): State {
    if c.checkboxName !in form then CheckboxMissing
    else if !Truthy(form[c.checkboxName].data) then CheckboxUnset
    else if InputAbsent(c.stripWhitespace, field.rawData) then InputMissing
    else InputPresent
  }

  /**
    The four-outcome state machine: a missing checkbox and missing input
    fail, an unset checkbox halts, present input passes; the errors are
    cleared exactly on a halt and on a missing input.
   */
  lemma OutcomeByState(c: Config, form: Form, field: Field)
    ensures var r, s := Call(c, form, field), StateOf(c, form, field);
            && (r.outcome.Fail? <==> s == CheckboxMissing || s == InputMissing)
            && (r.outcome == Halt <==> s == CheckboxUnset)
            && (r.outcome == Pass <==> s == InputPresent)
            && (r.field == field <==> s == CheckboxMissing || s == InputPresent || field.errors == [])
  {
  }

  /** An unticked checkbox halts whatever the field holds, filled or not. */
  lemma UntickedHaltsWhateverTheInput(c: Config, form: Form, f1: Field, f2: Field)
    requires c.checkboxName in form && !Truthy(form[c.checkboxName].data)
    ensures Call(c, form, f1).outcome == Call(c, form, f2).outcome == Halt
  {
  }

  /**
    Whitespace-only text counts as no input when whitespace is stripped and
    as input when it is not.
   */
  lemma WhitespaceOnlyInput(c: Config, form: Form, field: Field, ws: string)
    requires c.checkboxName in form && Truthy(form[c.checkboxName].data)
    requires ws != [] && AllSpace(ws) && |field.rawData| > 0 && field.rawData[0] == Text(ws)
    ensures Call(c, form, field).outcome.Fail? <==> c.stripWhitespace
    ensures !c.stripWhitespace ==> Call(c, form, field) == Step(Pass, field)
  {
  }

  /**
    With whitespace stripped, a ticked checkbox demands exactly what
    `EqualStateTo` calls a non-empty field.
   */
  lemma StrippedMatchesEqualState(c: Config, form: Form, field: Field)
    requires c.stripWhitespace && c.checkboxName in form && Truthy(form[c.checkboxName].data)
    ensures Call(c, form, field).outcome.Fail? <==> EqualStateTo.IsEmpty(field)
  {
  }

  /**
    The test suite's cases, the checkbox stored as "foo": ticked with filled
    input passes, unticked halts, ticked with empty input fails naming both
    labels (or with the configured message), and naming "fo" fails with the
    invalid-name message.
   */
  lemma CheckboxCases(m: Option<string>)
    ensures Call(New("foo"), map["foo" := TickedCheckbox()], FilledInput()) == Step(Pass, FilledInput())
    ensures Call(New("foo"), map["foo" := UntickedCheckbox()], FilledInput()).outcome == Halt
    ensures Call(New("foo", m), map["foo" := TickedCheckbox()], EmptyInput())
            == Step(Fail(RequiredFor(m, "Input_empty", "Checkbox_true")), EmptyInput())
    ensures Call(New("fo", m), map["foo" := TickedCheckbox()], EmptyInput())
            == Step(Fail(InvalidFieldName("fo")), EmptyInput())
  {
    assert !AllSpace("foobar") by {
      assert !IsSpace("foobar"[0]);
    }
  }

  /** The text the test suite expects when the ticked checkbox's input is empty. */
  lemma RequiredText()
    ensures Render(RequiredFor(None, "Input_empty", "Checkbox_true"))
            == Some("'Input_empty' is required for 'Checkbox_true'.")
    ensures Render(RequiredFor(Some("foo"), "Input_empty", "Checkbox_true")) == Some("foo")
  {
    assert "'" + "Input_empty" == "'Input_empty";
    assert "'Input_empty" + "' is required for '" == "'Input_empty' is required for '";
    assert "'Input_empty' is required for '" + "Checkbox_true" == "'Input_empty' is required for 'Checkbox_true";
    assert "'Input_empty' is required for 'Checkbox_true" + "'." == "'Input_empty' is required for 'Checkbox_true'.";
    assert !HasPlaceholders("foo");
  }
}
