/**
 * The earlier form framework: the form validates its keyword input through a
 * pydantic fields class on construction and keeps pydantic's error records.
 */
module LegacyForms {
  import opened Wrappers
  import opened FormErrors

  /** The parts of a pydantic `ErrorDetails` record the form reads:
      `str(loc[0])`, the class name of `ctx["error"]`, and `input`. */
  datatype ErrorDetails = ErrorDetails(loc: string, errorClass: string, input: FieldValue)

  /** Constructing the fields class from the input: the dumped model, or the
      records of the `ValidationError` it raised. */
  type Validation = Result<map<string, FieldValue>, seq<ErrorDetails>>

  /** What `get_errors_for_frontend` builds from the records, in order: each
      record whose field has a value is stored under its field and class,
      a later record overwriting an earlier one with the same pair. */
  function FrontendErrors(records: seq<ErrorDetails>, values: map<string, FieldValue>): ErrorMap
    decreases |records|
  {
    if records == [] then map[]
    else
      var acc := FrontendErrors(records[..|records| - 1], values);
      var last := records[|records| - 1];
      if HasInput(values, last.loc) then WithError(acc, last.loc, last.errorClass, last.input) else acc
  }

  /** A field is reported exactly when it has a value and some record is
      about it. */
  lemma {:induction false} FrontendErrorsFields(records: seq<ErrorDetails>, values: map<string, FieldValue>, f: string)
    ensures f in FrontendErrors(records, values) <==>
              HasInput(values, f) && exists i :: 0 <= i < |records| && records[i].loc == f
    decreases |records|
  {
    if records != [] {
      var init := records[..|records| - 1];
      FrontendErrorsFields(init, values, f);
      if f in FrontendErrors(init, values) {
        var i :| 0 <= i < |init| && init[i].loc == f;
        assert records[i].loc == f;
      }
      if HasInput(values, f) && exists i :: 0 <= i < |records| && records[i].loc == f {
        var i :| 0 <= i < |records| && records[i].loc == f;
        if i < |init| {
          assert init[i].loc == f;
        }
      }
    }
  }

  /** Every reported entry is the input of some record about that field and
      that class. */
  lemma {:induction false} FrontendErrorsProvenance(records: seq<ErrorDetails>, values: map<string, FieldValue>, f: string, c: string)
    requires f in FrontendErrors(records, values) && c in FrontendErrors(records, values)[f]
    ensures exists i :: 0 <= i < |records| && records[i] == ErrorDetails(f, c, FrontendErrors(records, values)[f][c])
    decreases |records|
  {
    var init := records[..|records| - 1];
    var last := records[|records| - 1];
    var r := FrontendErrors(records, values);
    if HasInput(values, last.loc) && last.loc == f && last.errorClass == c {
      assert records[|records| - 1] == ErrorDetails(f, c, r[f][c]);
    } else {
      FrontendErrorsProvenance(init, values, f, c);
      var i :| 0 <= i < |init| && init[i] == ErrorDetails(f, c, FrontendErrors(init, values)[f][c]);
      assert records[i] == init[i];
    }
  }

  /** A class is reported under a field exactly when the field has a value
      and some record is about that field and that class. */
  lemma {:induction false} FrontendErrorsClasses(records: seq<ErrorDetails>, values: map<string, FieldValue>, f: string, c: string)
    ensures (f in FrontendErrors(records, values) && c in FrontendErrors(records, values)[f]) <==>
              HasInput(values, f) && exists i :: 0 <= i < |records| && records[i].loc == f && records[i].errorClass == c
    decreases |records|
  {
    if records != [] {
      var init := records[..|records| - 1];
      FrontendErrorsClasses(init, values, f, c);
      if exists i :: 0 <= i < |init| && init[i].loc == f && init[i].errorClass == c {
        var i :| 0 <= i < |init| && init[i].loc == f && init[i].errorClass == c;
        assert records[i] == init[i];
      }
      if exists i :: 0 <= i < |records| && records[i].loc == f && records[i].errorClass == c {
        var i :| 0 <= i < |records| && records[i].loc == f && records[i].errorClass == c;
        if i < |init| {
          assert init[i] == records[i];
        }
      }
    }
  }

  /** The reported entry for a field and a class is the input of the last
      record about that pair: a later record overwrites an earlier one. */
  lemma {:induction false} FrontendErrorsLastWins(records: seq<ErrorDetails>, values: map<string, FieldValue>, i: nat)
    requires i < |records| && HasInput(values, records[i].loc)
    requires forall j :: i < j < |records| ==>
               records[j].loc != records[i].loc || records[j].errorClass != records[i].errorClass
    ensures records[i].loc in FrontendErrors(records, values)
    ensures records[i].errorClass in FrontendErrors(records, values)[records[i].loc]
    ensures FrontendErrors(records, values)[records[i].loc][records[i].errorClass] == records[i].input
    decreases |records|
  {
    if i < |records| - 1 {
      var init := records[..|records| - 1];
      assert init[i] == records[i];
      forall j | i < j < |init|
        ensures init[j].loc != init[i].loc || init[j].errorClass != init[i].errorClass
      {
        assert init[j] == records[j];
      }
      FrontendErrorsLastWins(init, values, i);
    }
  }

  /** The earlier `BaseForm`. */
  class LegacyForm {
    var canSubmitForm: bool
    var errors: seq<ErrorDetails>
    var fieldValues: map<string, FieldValue>

    /** Nothing in the class ever sets `can_submit_form` to True. */
    ghost predicate Valid()
      reads this
    {
      !canSubmitForm
    }

    /** `__init__`: not submittable, no errors, the input as the values; then
        `initialize_fields`. `validate` stands for constructing the concrete
        form's fields class. */
    constructor (kwargs: map<string, FieldValue>, validate: map<string, FieldValue> -> Validation)
      ensures Valid()
      ensures validate(kwargs).Success? ==> fieldValues == validate(kwargs).value && errors == []
      ensures validate(kwargs).Failure? ==> fieldValues == kwargs && errors == validate(kwargs).error
    {
      canSubmitForm := false;
      errors := [];
      fieldValues := kwargs;
      new;
      InitializeFields(validate);
    }

    /** `initialize_fields`: on success the values become the model's dump;
        on failure they stay as given and the error records are kept. */
    method InitializeFields(validate: map<string, FieldValue> -> Validation)
      modifies this
      ensures canSubmitForm == old(canSubmitForm)
      ensures validate(old(fieldValues)).Success? ==>
                fieldValues == validate(old(fieldValues)).value && errors == old(errors)
      ensures validate(old(fieldValues)).Failure? ==>
                fieldValues == old(fieldValues) && errors == validate(old(fieldValues)).error
    {
      match validate(fieldValues)
      case Success(dump) =>
        fieldValues := dump;
      case Failure(records) =>
        errors := records;
    }

    /** `get_errors_for_frontend`. */
    method GetErrorsForFrontend() returns (r: ErrorMap)
      ensures r == FrontendErrors(errors, fieldValues)
    {
      r := map[];
      if |errors| > 0 {
        var i := 0;
        while i < |errors|
          invariant 0 <= i <= |errors|
          invariant r == FrontendErrors(errors[..i], fieldValues)
        {
          var error := errors[i];
          assert errors[..i + 1][..i] == errors[..i];
          if HasInput(fieldValues, error.loc) {
            r := r[error.loc := ErrorsFor(r, error.loc)[error.errorClass := error.input]];
          }
          i := i + 1;
        }
        assert errors[..|errors|] == errors;
      }
    }

    /** `get_classes_for_fields`, recomputing the frontend errors for each
        field with a value. */
    method GetClassesForFields() returns (classes: map<string, string>)
      ensures classes == FieldClasses(fieldValues, FrontendErrors(errors, fieldValues))
    {
      classes := map[];
      var remaining := fieldValues.Keys;
      while remaining != {}
        invariant remaining <= fieldValues.Keys
        invariant forall f :: f in classes <==> HasInput(fieldValues, f) && f !in remaining
        invariant forall f :: f in classes ==>
                    classes[f] == (if f in FrontendErrors(errors, fieldValues) then IS_INVALID else IS_VALID)
        decreases remaining
      {
        var fieldName :| fieldName in remaining;
        if fieldValues[fieldName] != Null {
          var frontendErrors := GetErrorsForFrontend();
          var classStr := if fieldName in frontendErrors then IS_INVALID else IS_VALID;
          classes := classes[fieldName := classStr];
        }
        remaining := remaining - {fieldName};
      }
    }

    /** `for_template`: exactly the four keys; `can_submit` is always False. */
    method ForTemplate() returns (ctx: LegacyTemplateContext)
      requires Valid()
      ensures !ctx.canSubmit
      ensures ctx.values == fieldValues
      ensures ctx.fieldClasses == FieldClasses(fieldValues, FrontendErrors(errors, fieldValues))
      ensures ctx.errors == FrontendErrors(errors, fieldValues)
    {
      var classes := GetClassesForFields();
      var frontendErrors := GetErrorsForFrontend();
      ctx := LegacyTemplateContext(canSubmitForm, fieldValues, classes, frontendErrors);
    }
  }

  /** The dictionary the earlier `for_template` returns. */
  datatype LegacyTemplateContext = LegacyTemplateContext(
    canSubmit: bool,
    values: map<string, FieldValue>,
    fieldClasses: map<string, string>,
    errors: ErrorMap)

  /** A field with a value is shown invalid exactly when some error record is
      about it. */
  lemma InvalidIffRecorded(records: seq<ErrorDetails>, values: map<string, FieldValue>, f: string)
    requires HasInput(values, f)
    ensures FieldClasses(values, FrontendErrors(records, values))[f] == IS_INVALID <==>
              exists i :: 0 <= i < |records| && records[i].loc == f
  {
    FrontendErrorsFields(records, values, f);
  }
}
