/**
 * What both generations of the server-side form framework share: the values
 * a form field holds, the nested map of recorded errors (field name ->
 * exception class name -> offending input), and the Bootstrap validation
 * class derived for each field.
 */
module FormErrors {

  /** A form field's value: None, a string or an integer. */
  datatype FieldValue = Null | Str(s: string) | Int(i: int)

  /** `dict[str, dict[str, Any]]`: field name -> exception class name -> input. */
  type ErrorMap = map<string, map<string, FieldValue>>

  const IS_VALID: string := "is-valid"
  const IS_INVALID: string := "is-invalid"

  /** The value was supplied (it is not None). */
  predicate HasInput(values: map<string, FieldValue>, field: string) {
    field in values && values[field] != Null
  }

  /** The errors recorded so far for `field`; a `defaultdict(dict)` yields an
      empty dict for a field with none. */
  function ErrorsFor(errors: ErrorMap, field: string): map<string, FieldValue> {
    if field in errors then errors[field] else map[]
  }

  /** `errors[field][exceptionName] = value` on a `defaultdict(dict)`: the one
      entry is set, creating the field's dict if needed, and every other entry
      is left as it was. */
  function WithError(errors: ErrorMap, field: string, exceptionName: string, value: FieldValue): (r: ErrorMap)
    ensures r.Keys == errors.Keys + {field}
    ensures r[field].Keys == ErrorsFor(errors, field).Keys + {exceptionName}
    ensures r[field][exceptionName] == value
    ensures forall e :: e in ErrorsFor(errors, field) && e != exceptionName ==> r[field][e] == errors[field][e]
    ensures forall f :: f in errors && f != field ==> r[f] == errors[f]
  {
    errors[field := ErrorsFor(errors, field)[exceptionName := value]]
  }

  /** The Bootstrap class of every field that has input: `is-invalid` when the
      field has recorded errors and `is-valid` when it has none. Fields whose
      value is None get no class at all. */
  function FieldClasses(values: map<string, FieldValue>, errors: ErrorMap): (classes: map<string, string>)
    ensures forall f :: f in classes <==> HasInput(values, f)
    ensures forall f :: f in classes ==> (classes[f] == IS_INVALID <==> f in errors)
    ensures forall f :: f in classes ==> (classes[f] == IS_VALID <==> f !in errors)
  {
    map f | f in values && values[f] != Null :: if f in errors then IS_INVALID else IS_VALID
  }
}
