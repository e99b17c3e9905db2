/** The check of a quantity input: a number is required, and a unit the user
    typed must have been resolved to an item. */
module QuantityValidator {
  import opened Common
  import opened DataModel
  import opened StoreState

  const NumberError: QueryBuilderError :=
    QueryBuilderError("query-builder-quantity-value-error-number", Error, Some(NumberPart))
  const UnitError: QueryBuilderError :=
    QueryBuilderError("query-builder-quantity-value-error-unit", Error, Some(UnitPart))
  const CombinedError: QueryBuilderError :=
    QueryBuilderError("query-builder-quantity-value-error-number-and-unit", Error, Some(BothParts))

  /** The number part is missing: no quantity at all, or an amount that is
      falsy (absent, not a number, or zero). */
  predicate NumberMissing(value: Value)
  {
    !value.Quantity? || value.amount.None? || value.amount.value == 0
  }

  /** The unit part is wrong: text was typed but no unit item was chosen. */
  predicate UnitMissing(value: Value)
  {
    value.Quantity? && value.rawUnitInput != "" && value.unit.None?
  }

  /** The part of the input an error marks as faulty. */
  predicate MarksNumber(e: QueryBuilderError)
  {
    e.subproperty == Some(NumberPart) || e.subproperty == Some(BothParts)
  }

  predicate MarksUnit(e: QueryBuilderError)
  {
    e.subproperty == Some(UnitPart) || e.subproperty == Some(BothParts)
  }

  /** `validateQuantityValue`: the error returned marks exactly the parts of
      the input that are missing, and there is one unless nothing is. */
  function ValidateQuantityValue(value: Value): (r: Option<QueryBuilderError>)
    requires value.NullValue? || value.Quantity?
    ensures r.None? <==> !NumberMissing(value) && !UnitMissing(value)
    ensures r.Some? ==> (MarksNumber(r.value) <==> NumberMissing(value))
    ensures r.Some? ==> (MarksUnit(r.value) <==> UnitMissing(value))
    ensures r.Some? ==> r.value in {NumberError, UnitError, CombinedError}
  {
    if value.NullValue? then
      Some(NumberError)
    else if NumberMissing(value) && value.rawUnitInput != "" && value.unit.None? then
      Some(CombinedError)
    else if NumberMissing(value) then
      Some(NumberError)
    else if value.rawUnitInput != "" && value.unit.None? then
      Some(UnitError)
    else
      None
  }
}
