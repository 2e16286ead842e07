/**
 * The add-wedding form (src/components/AddWeddingForm.tsx): which fields are
 * mandatory, and the flag it reports to the modal on mount and on every change.
 */
module WeddingForm {
  import opened FormFields
  import opened JsText

  const WeddingMandatoryFields := ["coupleNames", "hostName", "weddingDate", "location"]

  /** `checkMandatoryFields`' result: some required field is absent, empty or white space (src/components/AddWeddingForm.tsx:11-16). */
  function WeddingFormIncomplete(values: FormValues): (r: bool)
    ensures r <==> IsEmptyValue(ValueOf(values, "coupleNames")) || IsEmptyValue(ValueOf(values, "hostName"))
                   || IsEmptyValue(ValueOf(values, "weddingDate")) || IsEmptyValue(ValueOf(values, "location"))
  {
    var fields := WeddingMandatoryFields;
    assert fields[0] == "coupleNames" && fields[1] == "hostName" && fields[2] == "weddingDate" && fields[3] == "location";
    HasEmptyFields(values, fields)
  }

  /** Four non-blank texts in the required fields make the form complete, whatever else it holds. */
  lemma FilledFormComplete(values: FormValues)
    requires forall f :: f in WeddingMandatoryFields ==> f in values && values[f].Text? && !AllWhiteSpace(values[f].s)
    ensures !WeddingFormIncomplete(values)
  {
    forall f | f in WeddingMandatoryFields ensures !IsEmptyValue(ValueOf(values, f)) {
      TrimEmptyIff(values[f].s);
    }
    assert WeddingMandatoryFields[0] in WeddingMandatoryFields;
    assert WeddingMandatoryFields[1] in WeddingMandatoryFields;
    assert WeddingMandatoryFields[2] in WeddingMandatoryFields;
    assert WeddingMandatoryFields[3] in WeddingMandatoryFields;
  }

  /** Only the four required fields decide the flag. */
  lemma OtherFieldsIrrelevant(values: FormValues, field: string, v: FormValue)
    requires field !in WeddingMandatoryFields
    ensures WeddingFormIncomplete(values[field := v]) == WeddingFormIncomplete(values)
  {
    assert field != "coupleNames" && field != "hostName" && field != "weddingDate" && field != "location";
  }

  class AddWeddingForm {
    var values: FormValues
    /** Each value handed to `setIsMandatory`, oldest first. */
    var reported: seq<bool>

    constructor(values: FormValues)
      ensures this.values == values && reported == []
    {
      this.values, reported := values, [];
    }

    /** `checkMandatoryFields`: computes the flag, reports it, and returns it. */
    method CheckMandatoryFields() returns (hasEmptyFields: bool)
      modifies this
      ensures hasEmptyFields == WeddingFormIncomplete(values)
      ensures reported == old(reported) + [hasEmptyFields] && values == old(values)
    {
      hasEmptyFields := WeddingFormIncomplete(values);
      reported := reported + [hasEmptyFields];
    }

    /** The mount effect (src/components/AddWeddingForm.tsx:25-27). */
    method Mount()
      modifies this
      ensures reported == old(reported) + [WeddingFormIncomplete(values)] && values == old(values)
    {
      var _ := CheckMandatoryFields();
    }

    /** `onValuesChange`: the flag for the new values is reported twice, once inside the check and once by the handler. */
    method HandleValuesChange(newValues: FormValues)
      modifies this
      ensures values == newValues
      ensures reported == old(reported) + [WeddingFormIncomplete(newValues), WeddingFormIncomplete(newValues)]
    {
      values := newValues;
      var flag := CheckMandatoryFields();
      reported := reported + [flag];
    }
  }
}
