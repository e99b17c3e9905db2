/** The form state read back from the shareable URL. The parsed JSON is the
    input; parsing the text itself is not modelled, only whether it
    succeeded. */
module QueryDeserializer {
  import opened Common
  import opened DataModel
  import opened StoreState
  import opened QuerySerializer
  import Getters

  /** What `JSON.parse` gave: no JSON at all, or an object whose
      `conditions` is a list (`None`: missing or not a list). */
  datatype ParsedQuery =
    | InvalidJson
    | ParsedObject(conditions: Option<seq<SerializedCondition>>, limit: Limit, useLimit: bool, omitLabels: bool)

  datatype DeserializationError = DeserializationError(message: string)

  const NotJsonError := DeserializationError("query URL parameter is not valid JSON")
  const InvalidParameterError := DeserializationError("invalid query URL parameter")

  /** The object `JSON.parse(JSON.stringify(q))` gives back: records of the
      shapes the serializer writes survive the trip unchanged. */
  function AsParsed(q: SerializedQuery): ParsedQuery
  {
    ParsedObject(Some(q.conditions), q.limit, q.useLimit, q.omitLabels)
  }

  /** `getPropertyData`: the id doubles as the label, and the property counts
      as set exactly when there is an id. */
  function PropertyDataOf(condition: SerializedCondition): (p: PropertyData)
    ensures p.id == condition.propertyId && p.propertyLabel == condition.propertyId
    ensures p.dataType == condition.propertyDataType && p.propertyError.None?
    ensures p.isPropertySet <==> condition.propertyId != ""
  {
    PropertyData(condition.propertyId, condition.propertyId, condition.propertyDataType, None, condition.propertyId != "")
  }

  /** An entity reference rebuilt from its id, which also serves as its label. */
  function EntityFromId(id: string): Value
  {
    Entity(ItemValue(id, id))
  }

  /** The value of a record, for a datatype that is neither quantity nor
      time, given whether the datatype's values are rebuilt as entities.
      Reading a field of an absent value fails (`None`). */
  function PlainValue(value: SerializedValue, asEntity: bool): Option<Value>
  {
    match value
    case SerializedText(text) => if asEntity then Some(EntityFromId(text)) else Some(RawText(text))
    case SerializedAbsent => if asEntity then Some(Malformed) else Some(Missing)
    case _ => Some(Malformed)
  }

  /** `getConditionValue` with the datatype test that picks the entity
      rebuild left to the caller. The empty string and `null` stand for no
      value; a quantity gets its unit back as an entity when it has one; a
      date gets a parse result holding its time and precision. A value of
      the wrong shape becomes `Malformed`, and reading a field of an absent
      value fails. */
  function ConditionValueWith(condition: SerializedCondition, asEntity: bool): (r: Option<Value>)
    ensures condition.value == SerializedText("") || condition.value == SerializedNull ==> r == Some(NullValue)
    ensures r.None? <==> condition.value == SerializedAbsent &&
                         condition.propertyDataType in {Some("quantity"), Some("time")}
  {
    var value := condition.value;
    if value == SerializedText("") || value == SerializedNull then
      Some(NullValue)
    else if condition.propertyDataType == Some("quantity") then
      match value
      case SerializedQuantity(amount, unit) =>
        Some(Quantity(amount, if unit.Some? && unit.value != "" then Some(ItemValue(unit.value, unit.value)) else None, ""))
      case SerializedAbsent => None
      case SerializedObject => Some(Malformed)
      case _ => Some(Quantity(None, None, ""))
    else if condition.propertyDataType == Some("time") then
      match value
      case SerializedDate(time, precision) =>
        Some(Date(Some(ParseResult(time, precision, 0, 0, 0, "")), Some(time)))
      case SerializedAbsent => None
      case _ => Some(Malformed)
    else
      PlainValue(value, asEntity)
  }

  /** `getConditionValue` as written: only `wikibase-item` values are rebuilt
      as entities. */
  function ConditionValueAsWritten(condition: SerializedCondition): Option<Value>
  {
    ConditionValueWith(condition, condition.propertyDataType == Some("wikibase-item"))
  }

  /** `getConditionValue` as intended: the values of every entity datatype
      are rebuilt as entities, as the getters and the serializer read them. */
  function ConditionValue(condition: SerializedCondition): Option<Value>
  {
    ConditionValueWith(condition,
      condition.propertyDataType.Some? && condition.propertyDataType.value in EntityDataTypes)
  }

  type ValueReader = SerializedCondition -> Option<Value>

  /** One restored row: no errors, the given row id. */
  function RowOf(condition: SerializedCondition, conditionId: string, value: Value): ConditionRow
  {
    ConditionRow(PropertyDataOf(condition), value, None, condition.propertyValueRelation,
      condition.referenceRelation, condition.subclasses, condition.conditionRelation, condition.negate, conditionId)
  }

  /** The rows restored in order, numbered from "1"; any value that cannot
      be read fails the whole list. */
  function RowsOf(conditions: seq<SerializedCondition>, read: ValueReader): (r: Option<seq<ConditionRow>>)
    ensures r.Some? ==> |r.value| == |conditions|
  {
    if conditions == [] then Some([])
    else
      var n := |conditions| - 1;
      var init := RowsOf(conditions[..n], read);
      var value := read(conditions[n]);
      if init.None? || value.None? then None
      else Some(init.value + [RowOf(conditions[n], NatToString(n + 1), value.value)])
  }

  /** The rows are restored exactly when every value can be read. */
  lemma {:induction false} RowsOfSome(conditions: seq<SerializedCondition>, read: ValueReader)
    ensures RowsOf(conditions, read).Some? <==> forall k :: 0 <= k < |conditions| ==> read(conditions[k]).Some?
  {
    if conditions != [] {
      var n := |conditions| - 1;
      RowsOfSome(conditions[..n], read);
      assert forall k :: 0 <= k < n ==> conditions[..n][k] == conditions[k];
    }
  }

  /** Restored row `k` is record `k` with id `k + 1`. */
  lemma {:induction false} RowsOfAt(conditions: seq<SerializedCondition>, read: ValueReader, k: nat)
    requires RowsOf(conditions, read).Some? && k < |conditions|
    ensures read(conditions[k]).Some?
    ensures RowsOf(conditions, read).value[k] == RowOf(conditions[k], NatToString(k + 1), read(conditions[k]).value)
  {
    var n := |conditions| - 1;
    if k < n {
      RowsOfAt(conditions[..n], read, k);
      assert conditions[..n][k] == conditions[k];
    }
  }

  /** The rows are restored exactly when every value can be read, and then
      row `k` is record `k` with id `k + 1`. */
  lemma RowsOfMeaning(conditions: seq<SerializedCondition>, read: ValueReader)
    ensures RowsOf(conditions, read).Some? <==> forall k :: 0 <= k < |conditions| ==> read(conditions[k]).Some?
    ensures RowsOf(conditions, read).Some? ==>
              forall k :: 0 <= k < |conditions| ==>
                RowsOf(conditions, read).value[k] == RowOf(conditions[k], NatToString(k + 1), read(conditions[k]).value)
  {
    RowsOfSome(conditions, read);
    if RowsOf(conditions, read).Some? {
      forall k | 0 <= k < |conditions|
        ensures RowsOf(conditions, read).value[k] == RowOf(conditions[k], NatToString(k + 1), read(conditions[k]).value)
      {
        RowsOfAt(conditions, read, k);
      }
    }
  }

  /** `deserialize` with the given way of reading values. */
  function DeserializedWith(parsed: ParsedQuery, read: ValueReader): (r: Result<RootState, DeserializationError>)
    ensures parsed.InvalidJson? ==> r == Err(NotJsonError)
    ensures r.Err? && !parsed.InvalidJson? ==> r.error == InvalidParameterError
    ensures r.Ok? ==> r.value.errors == [] && r.value.limit == parsed.limit &&
                      r.value.useLimit == parsed.useLimit && r.value.omitLabels == parsed.omitLabels
  {
    if parsed.InvalidJson? then Err(NotJsonError)
    else if parsed.conditions.None? then Err(InvalidParameterError)
    else
      var rows := RowsOf(parsed.conditions.value, read);
      if rows.None? then Err(InvalidParameterError)
      else Ok(RootState(rows.value, [], parsed.limit, parsed.useLimit, parsed.omitLabels))
  }

  function DeserializedAsWritten(parsed: ParsedQuery): Result<RootState, DeserializationError>
  {
    DeserializedWith(parsed, ConditionValueAsWritten)
  }

  function Deserialized(parsed: ParsedQuery): Result<RootState, DeserializationError>
  {
    DeserializedWith(parsed, ConditionValue)
  }

  /** `deserialize`: the rows pushed one at a time with a counter for their
      ids; values are read as intended (see `ConditionValueAsWritten`). */
  method Deserialize(parsed: ParsedQuery) returns (r: Result<RootState, DeserializationError>)
    ensures r == Deserialized(parsed)
  {
    if parsed.InvalidJson? {
      return Err(NotJsonError);
    }
    if parsed.conditions.None? {
      return Err(InvalidParameterError);
    }
    var conditions := parsed.conditions.value;
    var rows: seq<ConditionRow> := [];
    var conditionId := 1;
    var k := 0;
    while k < |conditions|
      invariant k <= |conditions| && conditionId == k + 1
      invariant RowsOf(conditions[..k], ConditionValue) == Some(rows)
    {
      assert conditions[..k + 1][..k] == conditions[..k];
      var value := ConditionValue(conditions[k]);
      if value.None? {
        RowsOfMeaning(conditions, ConditionValue);
        return Err(InvalidParameterError);
      }
      rows := rows + [RowOf(conditions[k], NatToString(conditionId), value.value)];
      conditionId := conditionId + 1;
      k := k + 1;
    }
    assert conditions[..k] == conditions;
    return Ok(RootState(rows, [], parsed.limit, parsed.useLimit, parsed.omitLabels));
  }

  /** The restored rows have the distinct ids "1", "2", ... in order, carry
      no errors, and count their property as set exactly when it has an id. */
  lemma RestoredRowsNumbered(parsed: ParsedQuery)
    requires Deserialized(parsed).Ok?
    ensures var rows := Deserialized(parsed).value.conditionRows;
            forall k :: 0 <= k < |rows| ==>
              rows[k].conditionId == NatToString(k + 1) && rows[k].valueError.None? &&
              rows[k].propertyData.propertyError.None? &&
              (rows[k].propertyData.isPropertySet <==> rows[k].propertyData.id != "")
    ensures var rows := Deserialized(parsed).value.conditionRows;
            forall j, k :: 0 <= j < k < |rows| ==> rows[j].conditionId != rows[k].conditionId
  {
    RowsOfMeaning(parsed.conditions.value, ConditionValue);
    var rows := Deserialized(parsed).value.conditionRows;
    forall j, k | 0 <= j < k < |rows|
      ensures rows[j].conditionId != rows[k].conditionId
    {
      NatToStringInjective(j + 1, k + 1);
    }
  }

  /** A row the form can hold: its property id is written out (it is set, or
      there is none), and its value has the shape its datatype calls for. */
  predicate WellFormedRow(row: ConditionRow)
  {
    var dataType := row.propertyData.dataType;
    var value := row.value;
    (row.propertyData.isPropertySet || row.propertyData.id == "") &&
    (dataType.Some? ==>
      value.NullValue? ||
      (dataType.value in EntityDataTypes && value.Entity?) ||
      (dataType.value == "quantity" && value.Quantity?) ||
      (dataType.value == "time" && value.Date? && value.parseResult.Some?) ||
      (dataType.value !in EntityDataTypes + ["quantity", "time"] && value.RawText?))
  }

  /** Writing a row out and reading it back gives a row the query reads the
      same way. */
  lemma RowRoundTrip(row: ConditionRow, conditionId: string)
    requires WellFormedRow(row)
    ensures ConditionValue(SerializedRow(row)).Some?
    ensures Getters.RowCondition(RowOf(SerializedRow(row), conditionId, ConditionValue(SerializedRow(row)).value)) ==
            Getters.RowCondition(row)
  {
  }

  /** Every record `serialize` writes for a form of well-formed rows can be
      read back, so the form is restored. */
  lemma RoundTripRestores(state: RootState)
    requires forall k :: 0 <= k < |state.conditionRows| ==> WellFormedRow(state.conditionRows[k])
    ensures Deserialized(AsParsed(Serialized(state))).Ok?
    ensures Deserialized(AsParsed(Serialized(state))).value.conditionRows ==
            RowsOf(SerializedRows(state.conditionRows), ConditionValue).value
  {
    var conditions := SerializedRows(state.conditionRows);
    forall k | 0 <= k < |conditions|
      ensures ConditionValue(conditions[k]).Some?
    {
      RowRoundTrip(state.conditionRows[k], NatToString(k + 1));
    }
    RowsOfSome(conditions, ConditionValue);
  }

  /** Row `k` of the restored form stands for the same condition as row `k`
      of the original. */
  lemma RoundTripRowAt(state: RootState, k: nat)
    requires forall k :: 0 <= k < |state.conditionRows| ==> WellFormedRow(state.conditionRows[k])
    requires k < |state.conditionRows|
    ensures Deserialized(AsParsed(Serialized(state))).Ok?
    ensures |Deserialized(AsParsed(Serialized(state))).value.conditionRows| == |state.conditionRows|
    ensures Getters.RowCondition(Deserialized(AsParsed(Serialized(state))).value.conditionRows[k]) ==
            Getters.RowCondition(state.conditionRows[k])
  {
    RoundTripRestores(state);
    var conditions := SerializedRows(state.conditionRows);
    RowsOfAt(conditions, ConditionValue, k);
    RowRoundTrip(state.conditionRows[k], NatToString(k + 1));
  }

  /** Restoring the URL of a form gives back a form with the same query:
      reading back what `serialize` writes never fails, and the query
      representation (conditions, limit, labels) is the one the original
      form stands for. */
  lemma RoundTripKeepsQuery(state: RootState)
    requires forall k :: 0 <= k < |state.conditionRows| ==> WellFormedRow(state.conditionRows[k])
    ensures Deserialized(AsParsed(Serialized(state))).Ok?
    ensures Getters.Query(Deserialized(AsParsed(Serialized(state))).value) == Getters.Query(state)
  {
    RoundTripRestores(state);
    var restored := Deserialized(AsParsed(Serialized(state))).value;
    forall k | 0 <= k < |state.conditionRows|
      ensures Getters.RowCondition(restored.conditionRows[k]) == Getters.RowCondition(state.conditionRows[k])
    {
      RoundTripRowAt(state, k);
    }
    Getters.ConditionsPointwise(restored.conditionRows, state.conditionRows);
  }

  /** The row of a lexeme condition the source's deserializer restores. */
  function LexemeRow(): ConditionRow
  {
    ConditionRow(PropertyData("P5137", "P5137", Some("wikibase-lexeme"), None, true),
      Entity(ItemValue("L7", "L7")), None, Matching, ReferencesRegardless, false, None, false, "1")
  }

  /** Restored as written, a lexeme condition keeps the bare id as its
      value: the query then has no value where the original had `L7`, and
      writing the restored form out again loses the value altogether. */
  lemma LexemeRoundTripAsWritten()
    ensures var state := InitialState("1").(conditionRows := [LexemeRow()]);
            var restored := DeserializedAsWritten(AsParsed(Serialized(state)));
            Getters.Query(state).Ok? && Getters.Query(state).value.conditions[0].value == StringValue("L7") &&
            restored.Ok? && restored.value.conditionRows[0].value == RawText("L7") &&
            Getters.Query(restored.value).Ok? &&
            Getters.Query(restored.value).value.conditions[0].value == UndefinedValue &&
            Serialized(restored.value).conditions[0].value == SerializedAbsent
  {
    var state := InitialState("1").(conditionRows := [LexemeRow()]);
    assert Serialized(state).conditions == [SerializedRow(LexemeRow())];
    var restored := DeserializedAsWritten(AsParsed(Serialized(state)));
    assert restored.value.conditionRows[0].value == RawText("L7");
  }

  /** A row whose property was unset after it was chosen: `unsetProperty`
      keeps the id, so the query still names the property. */
  function UnsetPropertyRow(): ConditionRow
  {
    ConditionRow(PropertyData("P31", "instance of", Some("string"), None, false),
      RawText("x"), None, Matching, ReferencesRegardless, false, None, false, "1")
  }

  /** The round trip does not keep the query of a row whose property was
      unset: the query names `P31` before, but the record carries no id, so
      the restored row's condition has an empty property id. */
  lemma UnsetPropertyRoundTripChangesQuery()
    ensures var state := InitialState("1").(conditionRows := [UnsetPropertyRow()]);
            var restored := Deserialized(AsParsed(Serialized(state)));
            Getters.Query(state).Ok? && Getters.Query(state).value.conditions[0].propertyId == "P31" &&
            restored.Ok? && Getters.Query(restored.value).Ok? &&
            Getters.Query(restored.value).value.conditions[0].propertyId == ""
  {
    var state := InitialState("1").(conditionRows := [UnsetPropertyRow()]);
    assert Serialized(state).conditions == [SerializedRow(UnsetPropertyRow())];
    var restored := Deserialized(AsParsed(Serialized(state)));
    assert restored.value.conditionRows[0].propertyData.id == "";
  }
}
