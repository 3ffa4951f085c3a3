/**
  The `EqualStateTo` validator: the field and another field, named in the
  configuration, must both be filled or both be empty.
 */
module EqualStateTo {
  import opened Options
  import opened PyText
  import opened Forms

  datatype Config = Config(otherFieldName: string, message: Option<string>)

  /** `EqualStateTo(other_field_name, message=None)`. */
  function New(otherFieldName: string, message: Option<string> := None): (c: Config)
    ensures c.otherFieldName == otherFieldName && c.message == message
  {
    Config(otherFieldName, message)
  }

  /**
    The emptiness test the validator applies to each field: no raw data, or a
    first raw value that is text and strips to nothing. Stripping to nothing
    is being all whitespace, so the test is `BlankInput`; a first raw value
    that is not text makes the field non-empty.
   */
  function IsEmpty(f: Field): (b: bool)
    ensures b <==> BlankInput(f.rawData)
    ensures |f.rawData| > 0 && f.rawData[0].Opaque? ==> !b
  {
    |f.rawData| == 0 || (f.rawData[0].Text? && Strip(f.rawData[0].text) == [])
  }

  /**
    `EqualStateTo.__call__`: a missing other field fails with the
    invalid-name message (never the configured one) and leaves the field
    alone; otherwise the call fails exactly when one field is blank and the
    other is not, and then clears the field's errors and reports both
    labels; a pass leaves the field as it was.
   */
  function Call(c: Config, form: Form, field: Field): (r: Step)
    ensures c.otherFieldName !in form ==> r == Step(Fail(InvalidFieldName(c.otherFieldName)), field)
    ensures c.otherFieldName in form ==>
              (r.outcome.Fail? <==> BlankInput(field.rawData) != BlankInput(form[c.otherFieldName].rawData))
    ensures r.outcome != Halt
    ensures r.outcome == Pass ==> r.field == field
    ensures c.otherFieldName in form && r.outcome.Fail? ==>
              && r.outcome.message == UnequalState(c.message, field.labelText, form[c.otherFieldName].labelText)
              && r.field == ClearErrors(field)
  {
    if c.otherFieldName !in form then
      Step(Fail(InvalidFieldName(c.otherFieldName)), field)
    else
      var other := form[c.otherFieldName];
      if IsEmpty(field) != IsEmpty(other) then
        Step(Fail(UnequalState(c.message, field.labelText, other.labelText)), ClearErrors(field))
      else
        Step(Pass, field)
  }

  /** A configured message does not change the invalid-name failure. */
  lemma InvalidNameIgnoresMessage(name: string, m1: Option<string>, m2: Option<string>, form: Form, field: Field)
    requires name !in form
    ensures Call(Config(name, m1), form, field) == Call(Config(name, m2), form, field)
    ensures Call(Config(name, m1), form, field).outcome == Fail(InvalidFieldName(name))
  {
  }

  /** The check is symmetric: validating `a` against `b` fails exactly when validating `b` against `a` does. */
  lemma Symmetric(a: string, b: string, form: Form, m: Option<string>)
    requires a in form && b in form
    ensures Call(Config(b, m), form, form[a]).outcome.Fail? <==> Call(Config(a, m), form, form[b]).outcome.Fail?
  {
  }

  /** Comparing a field with itself, or with any field holding the same raw data, passes and changes nothing. */
  lemma SameRawDataPasses(c: Config, form: Form, field: Field)
    requires c.otherFieldName in form && form[c.otherFieldName].rawData == field.rawData
    ensures Call(c, form, field) == Step(Pass, field)
  {
  }

  /** Only the first raw value is inspected: what follows it never changes the outcome. */
  lemma OnlyFirstRawValueMatters(c: Config, form: Form, field: Field, rest: seq<RawItem>)
    requires |field.rawData| > 0
    ensures Call(c, form, field.(rawData := field.rawData[..1] + rest)).outcome == Call(c, form, field).outcome
  {
    var g := field.(rawData := field.rawData[..1] + rest);
    assert g.rawData[0] == field.rawData[0];
  }

  /** Ticked against ticked, stored as "foo": equal states pass. */
  lemma TickedAgainstTicked()
    ensures Call(New("foo"), map["foo" := TickedCheckbox()], TickedCheckbox())
            == Step(Pass, TickedCheckbox())
  {
  }

  /**
    Unticked against the ticked checkbox stored as "foo": the states differ,
    so the call fails naming both labels, or with the configured message, and
    the errors collected so far are dropped.
   */
  lemma UntickedAgainstTicked(errors: seq<string>, m: Option<string>)
    ensures Call(New("foo", m), map["foo" := TickedCheckbox()], UntickedCheckbox().(errors := errors))
            == Step(Fail(UnequalState(m, "Checkbox_false", "Checkbox_true")), UntickedCheckbox())
  {
    assert !AllSpace("y") by {
      assert !IsSpace("y"[0]);
    }
    assert BlankInput(UntickedCheckbox().rawData);
    assert !BlankInput(TickedCheckbox().rawData);
  }

  /** Naming "fo", which the form does not hold, fails with the invalid-name message. */
  lemma MisnamedField(field: Field, m: Option<string>)
    ensures Call(New("fo", m), map["foo" := TickedCheckbox()], field) == Step(Fail(InvalidFieldName("fo")), field)
  {
    assert "fo" != "foo" by {
      assert |"fo"| != |"foo"|;
    }
  }

  /** The texts the test suite expects for those failures. */
  lemma FailureTexts()
    ensures Render(InvalidFieldName("fo")) == Some("Invalid field name 'fo'.")
    ensures Render(UnequalState(None, "Checkbox_false", "Checkbox_true"))
            == Some("'Checkbox_false' and 'Checkbox_true' must be of equal state.")
    ensures Render(UnequalState(Some("foo"), "Checkbox_false", "Checkbox_true")) == Some("foo")
  {
    assert "'" + "Checkbox_false" == "'Checkbox_false";
    assert "'Checkbox_false" + "' and '" == "'Checkbox_false' and '";
    assert "'Checkbox_false' and '" + "Checkbox_true" == "'Checkbox_false' and 'Checkbox_true";
    assert "'Checkbox_false' and 'Checkbox_true" + "' must be of equal state."
           == "'Checkbox_false' and 'Checkbox_true' must be of equal state.";
    assert "Invalid field name '" + "fo" + "'." == "Invalid field name 'fo'.";
    assert !HasPlaceholders("foo");
  }
}
