/** The check of the whole form before a query is run: which rows lack a
    property or a value, and the message for the form as a whole. */
module Validator {
  import opened Common
  import opened DataModel
  import opened StoreState
  import BaseValidator

  /** What the check sees of a row: the property, only when one is set. */
  datatype ConditionValues = ConditionValues(
    property: Option<PropertyData>,
    value: Value,
    propertyValueRelation: PropertyValueRelation)

  datatype ConditionErrors = ConditionErrors(
    property: Option<QueryBuilderError>,
    value: Option<QueryBuilderError>)

  datatype ValidationResult = ValidationResult(
    formErrors: seq<QueryBuilderError>,
    fieldErrors: seq<ConditionErrors>)

  const EmptyFormError: QueryBuilderError := BaseError("query-builder-result-error-empty-form", Notice)
  const IncompleteFormError: QueryBuilderError := BaseError("query-builder-result-error-incomplete-form", Error)
  const MissingPropertyError: QueryBuilderError := BaseError("query-builder-result-error-missing-property", Error)
  const NoErrors: ConditionErrors := ConditionErrors(None, None)

  predicate HasPropertyId(values: ConditionValues)
  {
    values.property.Some? && values.property.value.id != ""
  }

  /** A row the query can be built from: a property, and a value unless the
      value is to be ignored. */
  predicate Complete(values: ConditionValues)
  {
    HasPropertyId(values) && (values.propertyValueRelation == Regardless || Truthy(values.value))
  }

  /** `isEmpty`: no rows, or a single row with neither property nor value. */
  predicate IsEmpty(formValues: seq<ConditionValues>)
  {
    |formValues| == 0 ||
    (|formValues| == 1 && !HasPropertyId(formValues[0]) && !Truthy(formValues[0].value))
  }

  /** `validateCondition`: a missing property and a missing value (where the
      value is not to be ignored) are reported separately. */
  function ValidateCondition(values: ConditionValues): (errors: ConditionErrors)
    ensures errors.property.Some? <==> !HasPropertyId(values)
    ensures errors.value.Some? <==> values.propertyValueRelation != Regardless && !Truthy(values.value)
    ensures errors == NoErrors <==> Complete(values)
    ensures errors.property.Some? ==> errors.property.value == MissingPropertyError
    ensures errors.value.Some? ==> errors.value.value == BaseValidator.ValueMissingError
  {
    ConditionErrors(
      if !HasPropertyId(values) then Some(MissingPropertyError) else None,
      if values.propertyValueRelation != Regardless && !Truthy(values.value)
      then Some(BaseValidator.ValueMissingError) else None)
  }

  /** `validate`: an empty form gets only a notice and one error-free row;
      otherwise every row is checked and the form is marked incomplete
      exactly when some row is. */
  function Validate(formValues: seq<ConditionValues>): (r: ValidationResult)
    ensures IsEmpty(formValues) ==> r.formErrors == [EmptyFormError] && r.fieldErrors == [NoErrors]
    ensures !IsEmpty(formValues) ==> |r.fieldErrors| == |formValues|
    ensures !IsEmpty(formValues) ==>
              forall k :: 0 <= k < |formValues| ==> r.fieldErrors[k] == ValidateCondition(formValues[k])
    ensures !IsEmpty(formValues) ==>
              (r.formErrors == [] <==> forall k :: 0 <= k < |formValues| ==> Complete(formValues[k]))
    ensures !IsEmpty(formValues) && r.formErrors != [] ==> r.formErrors == [IncompleteFormError]
    ensures |r.fieldErrors| >= 1
  {
    if IsEmpty(formValues) then
      ValidationResult([EmptyFormError], [NoErrors])
    else
      var fieldErrors := seq(|formValues|, k requires 0 <= k < |formValues| => ValidateCondition(formValues[k]));
      var incomplete := exists k :: 0 <= k < |fieldErrors| && (fieldErrors[k].property.Some? || fieldErrors[k].value.Some?);
      ValidationResult(if incomplete then [IncompleteFormError] else [], fieldErrors)
  }

  /** An error-free result is only ever given to a form whose every row is
      complete, and the empty form never gets one. */
  lemma NoFormErrorsMeansComplete(formValues: seq<ConditionValues>)
    ensures Validate(formValues).formErrors == [] <==>
              |formValues| > 0 && !IsEmpty(formValues) &&
              forall k :: 0 <= k < |formValues| ==> Complete(formValues[k])
  {
  }
}
