/**
 * The server-side form framework: a fields object that validators fill with
 * errors, and a form that holds the user's input and exports what templates
 * need.
 */
module Forms {
  import opened FormErrors

  const EMPTY_VALUE_ERROR: string := "EmptyValueError"

  /** `BaseFormFields`: the form's declared field values and the errors its
      validators record. */
  class FormFields {
    var values: map<string, FieldValue>
    var errors: ErrorMap

    constructor (values: map<string, FieldValue>)
      ensures this.values == values && errors == map[]
    {
      this.values := values;
      errors := map[];
    }

    /** `add_error`: records `value` as the input that raised `exceptionName`
        on `fieldName`, leaving every other entry as it was. */
    method AddError(fieldName: string, exceptionName: string, value: FieldValue)
      modifies this
      ensures values == old(values)
      ensures errors == WithError(old(errors), fieldName, exceptionName, value)
    {
      errors := errors[fieldName := ErrorsFor(errors, fieldName)[exceptionName := value]];
    }
  }

  /** The dictionary `for_template` returns: exactly these five keys. */
  datatype TemplateContext = TemplateContext(
    canSubmit: bool,
    fields: map<string, FieldValue>,
    errors: ErrorMap,
    userInput: map<string, FieldValue>,
    fieldClasses: map<string, string>)

  /** The errors a template may report: those of fields the user gave a
      value for. */
  function ErrorsWithInput(errors: ErrorMap, userInput: map<string, FieldValue>): (r: ErrorMap)
    ensures forall f :: f in r <==> f in errors && HasInput(userInput, f)
    ensures forall f :: f in r ==> r[f] == errors[f]
  {
    map f | f in errors && f in userInput && userInput[f] != Null :: errors[f]
  }

  /** `BaseForm`: the user's input and the fields object that the concrete
      form's fields class built (and validated) from it. */
  class Form {
    const userInput: map<string, FieldValue>
    const fields: FormFields

    constructor (userInput: map<string, FieldValue>, fields: FormFields)
      ensures this.userInput == userInput && this.fields == fields
    {
      this.userInput := userInput;
      this.fields := fields;
    }

    /** `can_submit`: every input value is present and no error was
        recorded. */
    function CanSubmit(): (b: bool)
      reads fields
      ensures b <==> (forall f :: f in userInput ==> userInput[f] != Null) && fields.errors == map[]
    {
      Null !in userInput.Values && |fields.errors| == 0
    }

    /** `get_classes_for_fields`. */
    method GetClassesForFields() returns (classes: map<string, string>)
      ensures classes == FieldClasses(userInput, fields.errors)
    {
      classes := map[];
      var remaining := userInput.Keys;
      while remaining != {}
        invariant remaining <= userInput.Keys
        invariant forall f :: f in classes <==> HasInput(userInput, f) && f !in remaining
        invariant forall f :: f in classes ==> classes[f] == (if f in fields.errors then IS_INVALID else IS_VALID)
        decreases remaining
      {
        var fieldName :| fieldName in remaining;
        var value := userInput[fieldName];
        if value != Null {
          var classStr := if fieldName in fields.errors then IS_INVALID else IS_VALID;
          classes := classes[fieldName := classStr];
        }
        remaining := remaining - {fieldName};
      }
    }

    /** `for_template`: the field values (without the errors), the errors of
        fields with input only, the input itself, the field classes and
        whether the form can be submitted. */
    method ForTemplate() returns (ctx: TemplateContext)
      ensures ctx.canSubmit == CanSubmit()
      ensures ctx.fields == fields.values
      ensures ctx.errors == ErrorsWithInput(fields.errors, userInput)
      ensures ctx.userInput == userInput
      ensures ctx.fieldClasses == FieldClasses(userInput, fields.errors)
    {
      var classes := GetClassesForFields();
      ctx := TemplateContext(CanSubmit(), fields.values, ErrorsWithInput(fields.errors, userInput), userInput, classes);
    }
  }

  /** A submittable form shows every field as valid: each input field has a
      class, and that class is `is-valid`. */
  lemma SubmittableMeansAllValid(userInput: map<string, FieldValue>, errors: ErrorMap)
    requires forall f :: f in userInput ==> userInput[f] != Null
    requires errors == map[]
    ensures FieldClasses(userInput, errors).Keys == userInput.Keys
    ensures forall f :: f in userInput ==> FieldClasses(userInput, errors)[f] == IS_VALID
  {
  }
}
