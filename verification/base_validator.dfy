/** The value check shared by the form: a value that is missing is an error. */
module BaseValidator {
  import opened Common
  import opened DataModel
  import opened StoreState

  const ValueMissingError: QueryBuilderError := BaseError("query-builder-result-error-missing-value", Error)

  /** `validateValue`: a falsy value (`null`, `undefined`, the empty string)
      is reported as missing, any other value passes. */
  function ValidateValue(value: Value): (r: Option<QueryBuilderError>)
    ensures r.None? <==> Truthy(value)
    ensures r.Some? ==> r.value == ValueMissingError && r.value.errorType == Error
  {
    if !Truthy(value) then Some(ValueMissingError) else None
  }
}
