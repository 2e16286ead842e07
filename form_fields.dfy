/**
 * Form values as the two forms read them with `form.getFieldValue`, and the
 * "some mandatory field is empty" test that both forms apply.
 */
module FormFields {
  import opened JsText

  /**
   * A form field's value: absent (`undefined` or `null`), a string, or an
   * attached object such as an upload's file list (always truthy).
   */
  datatype FormValue = Absent | Text(s: string) | Attached

  /** The form's values by field name; a name without an entry reads as absent. */
  type FormValues = map<string, FormValue>

  function ValueOf(values: FormValues, field: string): FormValue {
    if field in values then values[field] else Absent
  }

  /** `!value`: absent or the empty string. */
  predicate IsFalsy(v: FormValue) {
    v.Absent? || v == Text("")
  }

  /** `!value || (typeof value === 'string' && value.trim() === '')`. */
  predicate IsEmptyValue(v: FormValue) {
    v.Absent? || (v.Text? && Trim(v.s) == "")
  }

  /** An empty value is absent or a string of white space only. */
  lemma EmptyValueMeaning(v: FormValue)
    ensures IsEmptyValue(v) <==> v.Absent? || (v.Text? && AllWhiteSpace(v.s))
    ensures IsFalsy(v) ==> IsEmptyValue(v)
  {
    if v.Text? {
      TrimEmptyIff(v.s);
    }
  }

  /** `fields.some(field => isEmpty(form.getFieldValue(field)))`. */
  function HasEmptyFields(values: FormValues, fields: seq<string>): (r: bool)
    ensures r <==> exists i :: 0 <= i < |fields| && IsEmptyValue(ValueOf(values, fields[i]))
  {
    if fields == [] then false
    else IsEmptyValue(ValueOf(values, fields[0])) || HasEmptyFields(values, fields[1..])
  }
}
