/** The form state written out for the shareable URL: one record per row,
    with the value reduced to what identifies it, plus the limit settings.
    The records are modelled as the object handed to `JSON.stringify`; the
    JSON text itself is not. */
module QuerySerializer {
  import opened Common
  import opened DataModel
  import opened StoreState

  /** A value as JSON carries it. `SerializedAbsent` is `undefined`, whose
      key `JSON.stringify` drops; `SerializedObject` is an object of any
      other shape, written out as it is. */
  datatype SerializedValue =
    | SerializedText(text: string)
    | SerializedQuantity(amount: Option<int>, unit: Option<string>)
    | SerializedDate(time: string, precision: int)
    | SerializedNull
    | SerializedAbsent
    | SerializedObject

  datatype SerializedCondition = SerializedCondition(
    propertyId: string,
    propertyDataType: Option<string>,
    propertyValueRelation: PropertyValueRelation,
    referenceRelation: ReferenceRelation,
    value: SerializedValue,
    subclasses: bool,
    conditionRelation: Option<ConditionRelation>,
    negate: bool)

  datatype SerializedQuery = SerializedQuery(
    conditions: seq<SerializedCondition>,
    limit: Limit,
    useLimit: bool,
    omitLabels: bool)

  /** `getValueFromCondition`: a falsy value becomes the empty string; an
      entity by its id, a quantity by amount and unit id, a parsed date by
      time and precision (an unparsed one by the empty string); any other
      value is written out as it is. */
  function ValueFromCondition(row: ConditionRow): (r: SerializedValue)
    ensures !Truthy(row.value) ==> r == SerializedText("")
    ensures Truthy(row.value) && row.propertyData.dataType.Some? && row.propertyData.dataType.value in EntityDataTypes ==>
              r == if row.value.Entity? then SerializedText(row.value.entity.id) else SerializedAbsent
    ensures row.value.Quantity? && row.propertyData.dataType == Some("quantity") ==>
              r == SerializedQuantity(row.value.amount,
                     if row.value.unit.Some? then Some(row.value.unit.value.id) else None)
    ensures row.value.Date? && row.propertyData.dataType == Some("time") ==>
              r == if row.value.parseResult.Some?
                   then SerializedDate(row.value.parseResult.value.time, row.value.parseResult.value.precision)
                   else SerializedText("")
    ensures row.value.RawText? && row.propertyData.dataType.Some? &&
            row.propertyData.dataType.value !in EntityDataTypes + ["quantity", "time"] ==>
              r == SerializedText(row.value.text)
  {
    var value := row.value;
    var dataType := row.propertyData.dataType;
    if !Truthy(value) then
      SerializedText("")
    else if dataType.Some? && dataType.value in EntityDataTypes then
      if value.Entity? then SerializedText(value.entity.id) else SerializedAbsent
    else if dataType == Some("quantity") then
      if value.Quantity? then
        SerializedQuantity(value.amount, if value.unit.Some? then Some(value.unit.value.id) else None)
      else
        SerializedQuantity(None, None)
    else if dataType == Some("time") then
      if value.Date? && value.parseResult.Some? then
        SerializedDate(value.parseResult.value.time, value.parseResult.value.precision)
      else
        SerializedText("")
    else if value.RawText? then
      SerializedText(value.text)
    else
      SerializedObject
  }

  /** One row's record: the property id only once the property is set; no
      errors and no row id. */
  function SerializedRow(row: ConditionRow): (c: SerializedCondition)
    ensures c.propertyId == if row.propertyData.isPropertySet then row.propertyData.id else ""
    ensures c.propertyDataType == row.propertyData.dataType && c.value == ValueFromCondition(row)
    ensures c.propertyValueRelation == row.propertyValueRelation && c.referenceRelation == row.referenceRelation
    ensures c.subclasses == row.subclasses && c.conditionRelation == row.conditionRelation && c.negate == row.negate
  {
    SerializedCondition(
      if row.propertyData.isPropertySet then row.propertyData.id else "",
      row.propertyData.dataType, row.propertyValueRelation, row.referenceRelation,
      ValueFromCondition(row), row.subclasses, row.conditionRelation, row.negate)
  }

  /** The records of the rows, in order. */
  function SerializedRows(rows: seq<ConditionRow>): (r: seq<SerializedCondition>)
    ensures |r| == |rows|
    ensures forall k :: 0 <= k < |rows| ==> r[k] == SerializedRow(rows[k])
  {
    if rows == [] then [] else SerializedRows(rows[..|rows| - 1]) + [SerializedRow(rows[|rows| - 1])]
  }

  /** What `serialize` writes: the row records and the three limit settings;
      the form errors are not written. */
  function Serialized(state: RootState): (q: SerializedQuery)
    ensures q.conditions == SerializedRows(state.conditionRows)
    ensures q.limit == state.limit && q.useLimit == state.useLimit && q.omitLabels == state.omitLabels
  {
    SerializedQuery(SerializedRows(state.conditionRows), state.limit, state.useLimit, state.omitLabels)
  }

  /** `serialize`: the records pushed one row at a time. */
  method Serialize(state: RootState) returns (q: SerializedQuery)
    ensures q == Serialized(state)
  {
    var conditions: seq<SerializedCondition> := [];
    var k := 0;
    while k < |state.conditionRows|
      invariant k <= |state.conditionRows|
      invariant conditions == SerializedRows(state.conditionRows[..k])
    {
      assert state.conditionRows[..k + 1][..k] == state.conditionRows[..k];
      conditions := conditions + [SerializedRow(state.conditionRows[k])];
      k := k + 1;
    }
    assert state.conditionRows[..k] == state.conditionRows;
    q := SerializedQuery(conditions, state.limit, state.useLimit, state.omitLabels);
  }
}
