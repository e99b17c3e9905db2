/** The read-only views of the form state: the query representation the
    compiler receives, and the per-row property and limited-support views. */
module Getters {
  import opened Common
  import opened DataModel
  import opened StoreState

  /** What the getter throws: a row without a datatype, a date that was not
      parsed, and reading a field of `undefined` or of a value of the wrong
      shape (a `TypeError` in the source). */
  datatype GetterError = MissingDatatype | InvalidTimeValue | ValueTypeError

  /** A quantity's unit as the query needs it: the unit item's id, or none
      when there is no unit or its id is empty. */
  function UnitId(unit: Option<ItemValue>): (r: Option<string>)
    ensures r.Some? <==> unit.Some? && unit.value.id != ""
    ensures r.Some? ==> r.value == unit.value.id
  {
    if unit.Some? && unit.value.id != "" then Some(unit.value.id) else None
  }

  /** `getQueryValueFromStoreValue`: a value of the shape its datatype calls
      for is carried over (entity datatypes by their id, quantities by amount
      and unit id, dates by time and precision, everything else as text);
      `null` becomes the empty string. A date that was not parsed, and a
      read through `undefined` or through a non-date under `time`, fail. */
  function QueryValueFromStoreValue(dataType: string, storeValue: Value): (r: Result<ConditionValue, GetterError>)
    ensures storeValue == NullValue ==> r == Ok(StringValue(""))
    ensures storeValue.Entity? && dataType in EntityDataTypes ==> r == Ok(StringValue(storeValue.entity.id))
    ensures storeValue.Quantity? && storeValue.amount.Some? && dataType == "quantity" ==>
              r == Ok(QuantityValue(storeValue.amount.value, UnitId(storeValue.unit)))
    ensures storeValue.Date? && storeValue.parseResult.Some? && dataType == "time" ==>
              r == Ok(DateTimeValue(storeValue.parseResult.value.time, storeValue.parseResult.value.precision))
    ensures storeValue.RawText? && dataType !in EntityDataTypes && dataType != "quantity" && dataType != "time" ==>
              r == Ok(StringValue(storeValue.text))
    ensures r.Err? <==>
              (storeValue != NullValue &&
               ((storeValue == Missing && (dataType in EntityDataTypes || dataType == "quantity")) ||
                (dataType == "time" && !(storeValue.Date? && storeValue.parseResult.Some?))))
    ensures r == Err(InvalidTimeValue) <==> dataType == "time" && storeValue.Date? && storeValue.parseResult.None?
  {
    if storeValue == NullValue then
      Ok(StringValue(""))
    else if dataType in EntityDataTypes then
      match storeValue
      case Missing => Err(ValueTypeError)
      case Entity(e) => Ok(StringValue(e.id))
      case _ => Ok(UndefinedValue)
    else if dataType == "quantity" then
      match storeValue
      case Missing => Err(ValueTypeError)
      case Quantity(amount, unit, _) =>
        if amount.Some? then Ok(QuantityValue(amount.value, UnitId(unit))) else Ok(MalformedValue)
      case _ => Ok(MalformedValue)
    else if dataType == "time" then
      match storeValue
      case Date(parseResult, _) =>
        if parseResult.None? then Err(InvalidTimeValue)
        else Ok(DateTimeValue(parseResult.value.time, parseResult.value.precision))
      case _ => Err(ValueTypeError)
    else
      match storeValue
      case RawText(text) => Ok(StringValue(text))
      case Missing => Ok(UndefinedValue)
      case _ => Ok(MalformedValue)
  }

  /** One row as a condition of the query: a row without a datatype fails,
      otherwise every field is carried over and the value converted. */
  function RowCondition(row: ConditionRow): (r: Result<Condition, GetterError>)
    ensures row.propertyData.dataType.None? ==> r == Err(MissingDatatype)
    ensures r.Ok? <==>
              (row.propertyData.dataType.Some? &&
               QueryValueFromStoreValue(row.propertyData.dataType.value, row.value).Ok?)
    ensures r.Ok? ==>
              r.value.propertyId == row.propertyData.id &&
              r.value.dataType == row.propertyData.dataType.value &&
              r.value.value == QueryValueFromStoreValue(row.propertyData.dataType.value, row.value).value &&
              r.value.propertyValueRelation == row.propertyValueRelation &&
              r.value.referenceRelation == row.referenceRelation &&
              r.value.subclasses == row.subclasses &&
              r.value.conditionRelation == row.conditionRelation &&
              r.value.negate == row.negate
  {
    if row.propertyData.dataType.None? then
      Err(MissingDatatype)
    else
      var dataType := row.propertyData.dataType.value;
      var value :- QueryValueFromStoreValue(dataType, row.value);
      Ok(Condition(
        row.propertyData.id, value, dataType, row.propertyValueRelation, row.referenceRelation,
        row.subclasses, row.conditionRelation, row.negate))
  }

  /** The rows mapped in order; the first row that fails decides the error. */
  function Conditions(rows: seq<ConditionRow>): (r: Result<seq<Condition>, GetterError>)
    ensures r.Ok? ==> |r.value| == |rows|
  {
    if |rows| == 0 then
      Ok([])
    else
      var init :- Conditions(rows[..|rows| - 1]);
      var c :- RowCondition(rows[|rows| - 1]);
      Ok(init + [c])
  }

  /** The rows map exactly when every row does, and then row by row. */
  lemma {:induction false} ConditionsOk(rows: seq<ConditionRow>)
    ensures Conditions(rows).Ok? <==> forall k :: 0 <= k < |rows| ==> RowCondition(rows[k]).Ok?
    ensures Conditions(rows).Ok? ==>
              forall k :: 0 <= k < |rows| ==> Conditions(rows).value[k] == RowCondition(rows[k]).value
  {
    if |rows| > 0 {
      var n := |rows| - 1;
      ConditionsOk(rows[..n]);
      assert forall k :: 0 <= k < n ==> rows[..n][k] == rows[k];
    }
  }

  /** A failure is the error of the first row that fails. */
  lemma {:induction false} ConditionsErr(rows: seq<ConditionRow>)
    requires Conditions(rows).Err?
    ensures exists k :: (0 <= k < |rows| && RowCondition(rows[k]) == Err(Conditions(rows).error) &&
                         forall j :: 0 <= j < k ==> RowCondition(rows[j]).Ok?)
  {
    var n := |rows| - 1;
    if Conditions(rows[..n]).Err? {
      ConditionsErr(rows[..n]);
      var k :| 0 <= k < n && RowCondition(rows[..n][k]) == Err(Conditions(rows[..n]).error) &&
               forall j :: 0 <= j < k ==> RowCondition(rows[..n][j]).Ok?;
      assert forall j :: 0 <= j < k ==> rows[..n][j] == rows[j];
      assert rows[..n][k] == rows[k];
    } else {
      ConditionsOk(rows[..n]);
      assert forall j :: 0 <= j < n ==> rows[..n][j] == rows[j];
      assert RowCondition(rows[n]) == Err(Conditions(rows).error);
    }
  }

  /** The limit the query carries: only when the limit is in use, and then
      the number entered or the default when the field is empty. */
  function QueryLimit(limit: Limit, useLimit: bool): (r: Option<int>)
    ensures r.Some? <==> useLimit
    ensures r.Some? && limit.LimitNumber? ==> r.value == limit.n
    ensures r.Some? && !limit.LimitNumber? ==> r.value == DefaultLimit
  {
    if !useLimit then None
    else if limit.LimitNumber? then Some(limit.n)
    else Some(DefaultLimit)
  }

  /** The `query` getter. */
  function Query(state: RootState): (r: Result<QueryRepresentation, GetterError>)
    ensures r.Ok? <==> Conditions(state.conditionRows).Ok?
    ensures r.Err? ==> r.error == Conditions(state.conditionRows).error
    ensures r.Ok? ==> r.value.conditions == Conditions(state.conditionRows).value
    ensures r.Ok? ==> r.value.limit == QueryLimit(state.limit, state.useLimit)
    ensures r.Ok? ==> r.value.omitLabels == state.omitLabels
  {
    var conditions :- Conditions(state.conditionRows);
    Ok(QueryRepresentation(conditions, QueryLimit(state.limit, state.useLimit), state.omitLabels))
  }

  /** The `property` getter: the row's property once it has an id. */
  function Property(state: RootState, conditionIndex: nat): (r: Option<PropertyData>)
    requires conditionIndex < |state.conditionRows|
    ensures r.Some? <==> state.conditionRows[conditionIndex].propertyData.id != ""
    ensures r.Some? ==> r.value == state.conditionRows[conditionIndex].propertyData
  {
    var p := state.conditionRows[conditionIndex].propertyData;
    if p.id == "" then None else Some(p)
  }

  /** Whether a datatype gets only limited support. */
  predicate LimitedDataType(dataType: Option<string>)
  {
    dataType.Some? && dataType.value !in AllowedDataTypes
  }

  /** The `limitedSupport` getter: a chosen property whose datatype the
      builder does not fully support. */
  function LimitedSupport(state: RootState, conditionIndex: nat): (r: bool)
    requires conditionIndex < |state.conditionRows|
    ensures r <==> state.conditionRows[conditionIndex].propertyData.isPropertySet &&
                   LimitedDataType(state.conditionRows[conditionIndex].propertyData.dataType)
  {
    var p := state.conditionRows[conditionIndex].propertyData;
    if !p.isPropertySet then false else p.dataType.Some? && p.dataType.value !in AllowedDataTypes
  }

  /** The parts of a row the query is built from. Errors, the row id and
      whether the property counts as set play no part. */
  predicate SameQueryFields(a: ConditionRow, b: ConditionRow)
  {
    a.propertyData.id == b.propertyData.id && a.propertyData.dataType == b.propertyData.dataType &&
    a.value == b.value && a.propertyValueRelation == b.propertyValueRelation &&
    a.referenceRelation == b.referenceRelation && a.subclasses == b.subclasses &&
    a.conditionRelation == b.conditionRelation && a.negate == b.negate
  }

  /** Rows that map to the same conditions one by one map to the same list,
      and fail alike. */
  lemma {:induction false} ConditionsPointwise(rows: seq<ConditionRow>, others: seq<ConditionRow>)
    requires |rows| == |others|
    requires forall k :: 0 <= k < |rows| ==> RowCondition(rows[k]) == RowCondition(others[k])
    ensures Conditions(rows) == Conditions(others)
  {
    if |rows| > 0 {
      var n := |rows| - 1;
      ConditionsPointwise(rows[..n], others[..n]);
    }
  }

  /** Rows that agree on the query fields give the same conditions. */
  lemma ConditionsOnlyReadQueryFields(rows: seq<ConditionRow>, others: seq<ConditionRow>)
    requires |rows| == |others|
    requires forall k :: 0 <= k < |rows| ==> SameQueryFields(rows[k], others[k])
    ensures Conditions(rows) == Conditions(others)
  {
    assert forall k :: 0 <= k < |rows| ==> RowCondition(rows[k]) == RowCondition(others[k]);
    ConditionsPointwise(rows, others);
  }

  /** The first condition of the query keeps the first row's relation, so a
      form whose first row is related to nothing gives a query whose first
      condition is related to nothing. */
  lemma QueryFirstConditionUnrelated(state: RootState)
    requires FirstRowUnrelated(state.conditionRows)
    requires Query(state).Ok?
    ensures |Query(state).value.conditions| > 0 ==> Query(state).value.conditions[0].conditionRelation.None?
  {
    ConditionsOk(state.conditionRows);
  }
}
