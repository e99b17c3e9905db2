/** The check of a date input: a date passes only once the parse service has
    produced a result for it. */
module DateValidator {
  import opened Common
  import opened DataModel
  import opened StoreState
  import BaseValidator

  /** JavaScript truthiness of the optional formatted text. */
  predicate FormattedPresent(formattedValue: Option<string>)
  {
    formattedValue.Some? && formattedValue.value != ""
  }

  /** `validateValue` of the date input, whose value is a date or `null`.
      Without a parse result, the formatted text (when there is one) holds
      the parse service's message and becomes the error. */
  function ValidateValue(value: Value): (r: Option<QueryBuilderError>)
    requires value.NullValue? || value.Date?
    ensures r.None? <==> value.Date? && value.parseResult.Some?
    ensures value.NullValue? || (value.parseResult.None? && !FormattedPresent(value.formattedValue)) ==>
              r == Some(BaseValidator.ValueMissingError)
    ensures value.Date? && value.parseResult.None? && FormattedPresent(value.formattedValue) ==>
              r == Some(BaseError(value.formattedValue.value, Error))
    ensures r.Some? ==> r.value.errorType == Error
  {
    if value.NullValue? || (value.parseResult.None? && !FormattedPresent(value.formattedValue)) then
      Some(BaseValidator.ValueMissingError)
    else if value.parseResult.None? && FormattedPresent(value.formattedValue) then
      Some(BaseError(value.formattedValue.value, Error))
    else
      None
  }
}
