/** The actions that change the form state: adding and removing rows,
    choosing a property or a value, setting and clearing errors, and the
    validation that runs before a query is built. Each action is a method of
    `Store` proved against a function of the state before it; the lemmas
    below are about those functions. */
module Actions {
  import opened Common
  import opened DataModel
  import opened StoreState
  import opened Getters
  import Validator
  import ConditionTree
  import QueryObjectBuilder

  /** A property as the lookup hands it over. */
  datatype Property = Property(id: string, propertyLabel: string, dataType: string)

  /** Which of a row's two error fields to clear. */
  datatype ErrorsToClear = PropertyErrors | ValueErrors | BothErrors

  const LimitedSupportNote: QueryBuilderError :=
    BaseError("query-builder-property-lookup-limited-support-note", Warning)

  /** The state with row `conditionIndex` replaced. */
  function WithRow(s: RootState, conditionIndex: nat, row: ConditionRow): RootState
    requires conditionIndex < |s.conditionRows|
  {
    s.(conditionRows := s.conditionRows[conditionIndex := row])
  }

  /** `clearFieldErrors` */
  function FieldErrorsCleared(s: RootState, conditionIndex: nat, errorsToClear: ErrorsToClear): RootState
    requires conditionIndex < |s.conditionRows|
  {
    var row := s.conditionRows[conditionIndex];
    var propertyError := if errorsToClear == ValueErrors then row.propertyData.propertyError else None;
    var valueError := if errorsToClear == PropertyErrors then row.valueError else None;
    WithRow(s, conditionIndex,
      row.(propertyData := row.propertyData.(propertyError := propertyError), valueError := valueError))
  }

  /** `setFieldErrors`: `None` is an error left out of the payload, which
      leaves that field as it is; `Some(None)` clears it. */
  function FieldErrorsSet(
    s: RootState, conditionIndex: nat,
    propertyError: Option<Option<QueryBuilderError>>, valueError: Option<Option<QueryBuilderError>>): RootState
    requires conditionIndex < |s.conditionRows|
  {
    var row := s.conditionRows[conditionIndex];
    var pe := if propertyError.Some? then propertyError.value else row.propertyData.propertyError;
    var ve := if valueError.Some? then valueError.value else row.valueError;
    WithRow(s, conditionIndex, row.(propertyData := row.propertyData.(propertyError := pe), valueError := ve))
  }

  /** `setValue`, and `clearValue` with `NullValue`. */
  function ValueSet(s: RootState, conditionIndex: nat, value: Value): RootState
    requires conditionIndex < |s.conditionRows|
  {
    WithRow(s, conditionIndex, s.conditionRows[conditionIndex].(value := value))
  }

  /** Whether `updateValue` hands the value to the date parser instead. */
  predicate GoesToDateParser(s: RootState, conditionIndex: nat, value: Value)
    requires conditionIndex < |s.conditionRows|
  {
    s.conditionRows[conditionIndex].propertyData.dataType == Some("time") && Truthy(value)
  }

  /** `updateValue` outside the date path: the value error is cleared and
      the value stored. */
  function ValueUpdated(s: RootState, conditionIndex: nat, value: Value): RootState
    requires conditionIndex < |s.conditionRows|
  {
    ValueSet(FieldErrorsCleared(s, conditionIndex, ValueErrors), conditionIndex, value)
  }

  /** `setProperty`: the given property's fields overwrite the row's, and
      the property counts as set even when none is given. */
  function PropertySet(s: RootState, conditionIndex: nat, property: Option<Property>): RootState
    requires conditionIndex < |s.conditionRows|
  {
    var row := s.conditionRows[conditionIndex];
    var data := if property.Some? then
        row.propertyData.(id := property.value.id, propertyLabel := property.value.propertyLabel,
                          dataType := Some(property.value.dataType))
      else row.propertyData;
    WithRow(s, conditionIndex, row.(propertyData := data.(isPropertySet := true)))
  }

  /** `unsetProperty` */
  function PropertyUnset(s: RootState, conditionIndex: nat): RootState
    requires conditionIndex < |s.conditionRows|
  {
    var row := s.conditionRows[conditionIndex];
    FieldErrorsCleared(
      WithRow(s, conditionIndex, row.(propertyData := row.propertyData.(isPropertySet := false))),
      conditionIndex, PropertyErrors)
  }

  function PropertyValueRelationSet(s: RootState, conditionIndex: nat, relation: PropertyValueRelation): RootState
    requires conditionIndex < |s.conditionRows|
  {
    WithRow(s, conditionIndex, s.conditionRows[conditionIndex].(propertyValueRelation := relation))
  }

  function ReferenceRelationSet(s: RootState, conditionIndex: nat, relation: ReferenceRelation): RootState
    requires conditionIndex < |s.conditionRows|
  {
    WithRow(s, conditionIndex, s.conditionRows[conditionIndex].(referenceRelation := relation))
  }

  function NegateSet(s: RootState, conditionIndex: nat, negate: bool): RootState
    requires conditionIndex < |s.conditionRows|
  {
    WithRow(s, conditionIndex, s.conditionRows[conditionIndex].(negate := negate))
  }

  function SubclassesSet(s: RootState, conditionIndex: nat, subclasses: bool): RootState
    requires conditionIndex < |s.conditionRows|
  {
    WithRow(s, conditionIndex, s.conditionRows[conditionIndex].(subclasses := subclasses))
  }

  function ConditionRelationSet(s: RootState, conditionIndex: nat, relation: Option<ConditionRelation>): RootState
    requires conditionIndex < |s.conditionRows|
  {
    WithRow(s, conditionIndex, s.conditionRows[conditionIndex].(conditionRelation := relation))
  }

  /** A row as the limited-support marking leaves it. */
  function LimitedSupportRow(row: ConditionRow): ConditionRow
  {
    row.(propertyValueRelation := Regardless, value := NullValue, valueError := None,
         propertyData := row.propertyData.(propertyError := Some(LimitedSupportNote)))
  }

  /** `setConditionAsLimitedSupport`: the value is ignored and cleared, and
      the property carries the limited-support note; nothing else changes. */
  function MarkedLimitedSupport(s: RootState, conditionIndex: nat): (r: RootState)
    requires conditionIndex < |s.conditionRows|
    ensures r == WithRow(s, conditionIndex, LimitedSupportRow(s.conditionRows[conditionIndex]))
  {
    var s1 := PropertyValueRelationSet(s, conditionIndex, Regardless);
    var s2 := ValueUpdated(s1, conditionIndex, NullValue);
    FieldErrorsSet(s2, conditionIndex, Some(Some(LimitedSupportNote)), None)
  }

  /** A change of property to another datatype invalidates the value; an
      unset (or empty) old datatype does not. */
  predicate DatatypeChanges(before: Option<string>, after: string)
  {
    before.Some? && before.value != "" && before.value != after
  }

  /** `updateProperty`: the row takes the property and counts it as set; a
      datatype the builder does not fully support leaves the row with limited
      support (value ignored and cleared, a warning on the property), any
      other clears the property error and keeps the value unless the datatype
      changed. Other rows and the rest of the state stay as they were. */
  function PropertyUpdated(s: RootState, conditionIndex: nat, property: Property): (r: RootState)
    requires conditionIndex < |s.conditionRows|
    ensures |r.conditionRows| == |s.conditionRows|
    ensures forall k :: 0 <= k < |s.conditionRows| && k != conditionIndex ==> r.conditionRows[k] == s.conditionRows[k]
    ensures r.errors == s.errors && r.limit == s.limit && r.useLimit == s.useLimit && r.omitLabels == s.omitLabels
  {
    var s1 := if DatatypeChanges(s.conditionRows[conditionIndex].propertyData.dataType, property.dataType)
      then ValueSet(s, conditionIndex, NullValue) else s;
    var s2 := PropertySet(s1, conditionIndex, Some(property));
    if property.dataType !in AllowedDataTypes then MarkedLimitedSupport(s2, conditionIndex)
    else FieldErrorsCleared(s2, conditionIndex, PropertyErrors)
  }

  /** After `updateProperty` the row holds the property, counted as set, and
      keeps its relation to the row above; it has limited support exactly
      when the datatype is not fully supported. */
  lemma PropertyUpdatedRow(s: RootState, conditionIndex: nat, property: Property)
    requires conditionIndex < |s.conditionRows|
    ensures var row := PropertyUpdated(s, conditionIndex, property).conditionRows[conditionIndex];
            row.propertyData.id == property.id && row.propertyData.dataType == Some(property.dataType) &&
            row.propertyData.isPropertySet && row.conditionRelation == s.conditionRows[conditionIndex].conditionRelation
    ensures LimitedSupport(PropertyUpdated(s, conditionIndex, property), conditionIndex) <==>
              property.dataType !in AllowedDataTypes
  {
  }

  /** What `updateProperty` does to the rest of the row: with an unsupported
      datatype the value is ignored and cleared and the property carries the
      limited-support warning; with a supported one the property error is
      cleared, the relation and value error are kept, and the value is kept
      unless the datatype changed. */
  lemma PropertyUpdatedValue(s: RootState, conditionIndex: nat, property: Property)
    requires conditionIndex < |s.conditionRows|
    ensures property.dataType !in AllowedDataTypes ==>
              var row := PropertyUpdated(s, conditionIndex, property).conditionRows[conditionIndex];
              row.propertyValueRelation == Regardless && row.value == NullValue && row.valueError.None? &&
              row.propertyData.propertyError == Some(LimitedSupportNote)
    ensures property.dataType in AllowedDataTypes ==>
              var before := s.conditionRows[conditionIndex];
              var row := PropertyUpdated(s, conditionIndex, property).conditionRows[conditionIndex];
              row.propertyData.propertyError.None? &&
              row.propertyValueRelation == before.propertyValueRelation && row.valueError == before.valueError &&
              row.value == (if DatatypeChanges(before.propertyData.dataType, property.dataType) then NullValue else before.value)
  {
  }

  /** `addCondition`: a fresh row at the end, related to the row above by
      `and` unless it is the only row. The random row id is a parameter. */
  function RowsAdded(rows: seq<ConditionRow>, conditionId: string): (r: seq<ConditionRow>)
    ensures |r| == |rows| + 1 && r[..|rows|] == rows
    ensures r[|rows|].conditionRelation == (if rows == [] then None else Some(And))
    ensures FirstRowUnrelated(rows) ==> FirstRowUnrelated(r)
  {
    rows + [FreshConditionRow(|rows| == 0, conditionId)]
  }

  /** `splice(conditionIndex, 1)`: the row removed, or nothing when the index
      is past the end. */
  function Spliced(rows: seq<ConditionRow>, conditionIndex: nat): (r: seq<ConditionRow>)
    ensures conditionIndex < |rows| ==> |r| == |rows| - 1
    ensures conditionIndex < |rows| ==> forall k :: 0 <= k < |r| ==> r[k] == rows[if k < conditionIndex then k else k + 1]
    ensures conditionIndex >= |rows| ==> r == rows
  {
    if conditionIndex < |rows| then rows[..conditionIndex] + rows[conditionIndex + 1..] else rows
  }

  /** `removeCondition` as written: the relation is reset only when exactly
      one row remains. */
  function RowsRemovedAsWritten(rows: seq<ConditionRow>, conditionIndex: nat): (r: seq<ConditionRow>)
    ensures |r| == |Spliced(rows, conditionIndex)|
    ensures |r| != 1 ==> r == Spliced(rows, conditionIndex)
  {
    var spliced := Spliced(rows, conditionIndex);
    if |spliced| == 1 then [spliced[0].(conditionRelation := None)] else spliced
  }

  /** `removeCondition` as intended: whichever row becomes the first one is
      related to nothing; every other row is kept as it was, in order. */
  function RowsRemoved(rows: seq<ConditionRow>, conditionIndex: nat): (r: seq<ConditionRow>)
    ensures FirstRowUnrelated(r)
    ensures |r| == |Spliced(rows, conditionIndex)|
    ensures forall k :: 0 < k < |r| ==> r[k] == Spliced(rows, conditionIndex)[k]
    ensures |r| > 0 ==> r[0] == Spliced(rows, conditionIndex)[0].(conditionRelation := None)
    ensures |r| == 1 ==> r == RowsRemovedAsWritten(rows, conditionIndex)
  {
    var spliced := Spliced(rows, conditionIndex);
    if |spliced| > 0 then spliced[0 := spliced[0].(conditionRelation := None)] else spliced
  }

  /** `validateLimit`: an unset limit becomes the default; an emptied limit
      that is in use replaces the form errors with the incomplete-form
      error. */
  function LimitValidated(s: RootState): (r: RootState)
    ensures s.limit.LimitUndefined? ==> r == s.(limit := LimitNumber(DefaultLimit))
    ensures s.limit.LimitNull? && s.useLimit ==> r == s.(errors := [Validator.IncompleteFormError])
    ensures s.limit.LimitNumber? || (s.limit.LimitNull? && !s.useLimit) ==> r == s
    ensures r.conditionRows == s.conditionRows
  {
    if s.limit.LimitUndefined? then s.(limit := LimitNumber(DefaultLimit))
    else if s.useLimit && s.limit.LimitNull? then s.(errors := [Validator.IncompleteFormError])
    else s
  }

  /** What the validator sees of a row: the property only once it is set. */
  function FormValues(rows: seq<ConditionRow>): (r: seq<Validator.ConditionValues>)
    ensures |r| == |rows|
    ensures forall k :: 0 <= k < |rows| ==>
              (r[k].property.Some? <==> rows[k].propertyData.isPropertySet)
              && (r[k].property.Some? ==> r[k].property.value == rows[k].propertyData)
              && r[k].value == rows[k].value && r[k].propertyValueRelation == rows[k].propertyValueRelation
  {
    seq(|rows|, k requires 0 <= k < |rows| =>
      Validator.ConditionValues(
        if rows[k].propertyData.isPropertySet then Some(rows[k].propertyData) else None,
        rows[k].value, rows[k].propertyValueRelation))
  }

  /** A row carrying the given field errors. */
  function WithFieldErrors(row: ConditionRow, errors: Validator.ConditionErrors): ConditionRow
  {
    row.(propertyData := row.propertyData.(propertyError := errors.property), valueError := errors.value)
  }

  /** The field errors of the validation, stored row by row in order: the
      first rows carry them, the rest and everything else are unchanged. */
  function FieldErrorsApplied(s: RootState, fieldErrors: seq<Validator.ConditionErrors>): (r: RootState)
    requires |fieldErrors| <= |s.conditionRows|
    ensures |r.conditionRows| == |s.conditionRows|
    ensures r == s.(conditionRows := r.conditionRows)
    ensures forall k :: 0 <= k < |fieldErrors| ==> r.conditionRows[k] == WithFieldErrors(s.conditionRows[k], fieldErrors[k])
    ensures forall k :: |fieldErrors| <= k < |s.conditionRows| ==> r.conditionRows[k] == s.conditionRows[k]
  {
    if fieldErrors == [] then s
    else
      var n := |fieldErrors| - 1;
      FieldErrorsSet(FieldErrorsApplied(s, fieldErrors[..n]), n,
        Some(fieldErrors[n].property), Some(fieldErrors[n].value))
  }

  /** A row whose datatype is set, non-empty and not fully supported. */
  predicate NeedsLimitedSupport(row: ConditionRow)
  {
    row.propertyData.dataType.Some? && row.propertyData.dataType.value != "" &&
    row.propertyData.dataType.value !in AllowedDataTypes
  }

  /** The limited-support marking re-applied to the first `count` rows, in
      order, each decided on the row as it then is: exactly the rows among
      them that need it are marked, nothing else changes. */
  function LimitedSupportReapplied(s: RootState, count: nat): (r: RootState)
    requires count <= |s.conditionRows|
    ensures |r.conditionRows| == |s.conditionRows|
    ensures r == s.(conditionRows := r.conditionRows)
    ensures forall k :: 0 <= k < count ==>
              r.conditionRows[k] == if NeedsLimitedSupport(s.conditionRows[k]) then LimitedSupportRow(s.conditionRows[k])
                                    else s.conditionRows[k]
    ensures forall k :: count <= k < |s.conditionRows| ==> r.conditionRows[k] == s.conditionRows[k]
  {
    if count == 0 then s
    else
      var before := LimitedSupportReapplied(s, count - 1);
      if NeedsLimitedSupport(before.conditionRows[count - 1]) then MarkedLimitedSupport(before, count - 1)
      else before
  }

  /** `validateForm`; the form must have a row (on an empty form the source
      fails while storing the field errors of a row that does not exist).
      Rows that need limited support end up marked with it; every other row
      the validation covers carries its field errors; the form errors are
      the validation's unless an emptied limit in use replaces them; the
      rows keep their property, datatype and relation to the row above. */
  function FormValidated(s: RootState): (r: RootState)
    requires |s.conditionRows| > 0
    ensures |r.conditionRows| == |s.conditionRows|
    ensures r.useLimit == s.useLimit && r.omitLabels == s.omitLabels
  {
    var result := Validator.Validate(FormValues(s.conditionRows));
    var s1 := s.(errors := result.formErrors);
    var s2 := FieldErrorsApplied(s1, result.fieldErrors);
    LimitValidated(LimitedSupportReapplied(s2, |s2.conditionRows|))
  }

  /** The rows after `validateForm`: those that need limited support are
      marked with it, every other row the validation covers carries its
      field errors, the rest are unchanged; the first row stays unrelated. */
  lemma FormValidatedRows(s: RootState)
    requires |s.conditionRows| > 0
    ensures var r := FormValidated(s);
            var result := Validator.Validate(FormValues(s.conditionRows));
            forall k :: 0 <= k < |s.conditionRows| ==>
              r.conditionRows[k] ==
                if NeedsLimitedSupport(s.conditionRows[k]) then LimitedSupportRow(s.conditionRows[k])
                else if k < |result.fieldErrors| then WithFieldErrors(s.conditionRows[k], result.fieldErrors[k])
                else s.conditionRows[k]
    ensures FirstRowUnrelated(s.conditionRows) ==> FirstRowUnrelated(FormValidated(s).conditionRows)
  {
  }

  /** The form errors and limit after `validateForm`: the validation's form
      errors unless an emptied limit is in use, which gives the
      incomplete-form error; an unset limit becomes the default. */
  lemma FormValidatedErrors(s: RootState)
    requires |s.conditionRows| > 0
    ensures s.useLimit && s.limit.LimitNull? ==> FormValidated(s).errors == [Validator.IncompleteFormError]
    ensures !(s.useLimit && s.limit.LimitNull?) ==>
              FormValidated(s).errors == Validator.Validate(FormValues(s.conditionRows)).formErrors
    ensures FormValidated(s).limit == if s.limit.LimitUndefined? then LimitNumber(DefaultLimit) else s.limit
  {
  }

  /** Why `FormValidated` needs a row: on an empty form the validation
      still reports the field errors of one row, and storing them writes
      to a row the form does not have. */
  lemma EmptyFormErrorsHaveNoRow(s: RootState)
    requires |s.conditionRows| == 0
    ensures |Validator.Validate(FormValues(s.conditionRows)).fieldErrors| == 1
  {
  }

  /** Storing or clearing errors never changes the query the form stands
      for. */
  lemma ErrorActionsKeepQuery(
    s: RootState, conditionIndex: nat, errorsToClear: ErrorsToClear,
    propertyError: Option<Option<QueryBuilderError>>, valueError: Option<Option<QueryBuilderError>>,
    formErrors: seq<QueryBuilderError>)
    requires conditionIndex < |s.conditionRows|
    ensures Query(FieldErrorsCleared(s, conditionIndex, errorsToClear)) == Query(s)
    ensures Query(FieldErrorsSet(s, conditionIndex, propertyError, valueError)) == Query(s)
    ensures Query(s.(errors := formErrors)) == Query(s)
  {
    ConditionsOnlyReadQueryFields(FieldErrorsCleared(s, conditionIndex, errorsToClear).conditionRows, s.conditionRows);
    ConditionsOnlyReadQueryFields(FieldErrorsSet(s, conditionIndex, propertyError, valueError).conditionRows, s.conditionRows);
  }

  /** A complete row with a string property, related to the row above as
      given. */
  function StringRow(relation: Option<ConditionRelation>): ConditionRow
  {
    ConditionRow(PropertyData("P1", "P1", Some("string"), None, true), RawText("x"), None,
      Matching, ReferencesRegardless, false, relation, false, "1")
  }

  /** With three rows, removing the first one as the source does leaves an
      `or` row first; the query of that form cannot be compiled, whatever
      the value patterns. */
  lemma RemoveFirstOfThreeAsWritten(build: QueryObjectBuilder.ConditionBuilder)
    ensures var rows := [StringRow(None), StringRow(Some(Or)), StringRow(Some(And))];
            var after := InitialState("1").(conditionRows := RowsRemovedAsWritten(rows, 0));
            FirstRowUnrelated(rows) && !FirstRowUnrelated(after.conditionRows) &&
            Query(after).Ok? &&
            QueryObjectBuilder.Compile(build, Query(after).value) == Err(UndefinedCondition)
  {
    var rows := [StringRow(None), StringRow(Some(Or)), StringRow(Some(And))];
    var after := InitialState("1").(conditionRows := RowsRemovedAsWritten(rows, 0));
    assert after.conditionRows == [StringRow(Some(Or)), StringRow(Some(And))];
    assert RowCondition(after.conditionRows[0]).Ok? && RowCondition(after.conditionRows[1]).Ok?;
    ConditionsOk(after.conditionRows);
    var q := Query(after).value;
    assert ConditionTree.IsOr(q.conditions[0]);
    QueryObjectBuilder.LeadingOrFails(build, q);
  }

  /** With the first remaining row reset, the condition tree of the form's
      query has no undefined member, whichever row is removed. */
  lemma RemovedConditionLeavesNoHole(s: RootState, conditionIndex: nat)
    requires Query(s.(conditionRows := RowsRemoved(s.conditionRows, conditionIndex))).Ok?
    ensures var q := Query(s.(conditionRows := RowsRemoved(s.conditionRows, conditionIndex))).value;
            None !in ConditionTree.Flatten(ConditionTree.Tree(q.conditions))
  {
    var after := s.(conditionRows := RowsRemoved(s.conditionRows, conditionIndex));
    QueryFirstConditionUnrelated(after);
    ConditionTree.HoleOnlyForLeadingOr(Query(after).value.conditions);
  }

  /** The application's store: the root state's fields, changed in place by
      the actions. */
  class Store {
    var conditionRows: seq<ConditionRow>
    var errors: seq<QueryBuilderError>
    var limit: Limit
    var useLimit: bool
    var omitLabels: bool

    function State(): RootState
      reads this
    {
      RootState(conditionRows, errors, limit, useLimit, omitLabels)
    }

    /** A store in the initial state; the first row's random id is a
        parameter. */
    constructor(conditionId: string)
      ensures State() == InitialState(conditionId)
    {
      var initial := InitialState(conditionId);
      conditionRows := initial.conditionRows;
      errors := initial.errors;
      limit := initial.limit;
      useLimit := initial.useLimit;
      omitLabels := initial.omitLabels;
    }

    method ClearFieldErrors(conditionIndex: nat, errorsToClear: ErrorsToClear)
      requires conditionIndex < |conditionRows|
      modifies this
      ensures State() == FieldErrorsCleared(old(State()), conditionIndex, errorsToClear)
    {
      var row := conditionRows[conditionIndex];
      if errorsToClear == PropertyErrors || errorsToClear == BothErrors {
        row := row.(propertyData := row.propertyData.(propertyError := None));
      }
      if errorsToClear == ValueErrors || errorsToClear == BothErrors {
        row := row.(valueError := None);
      }
      conditionRows := conditionRows[conditionIndex := row];
    }

    method SetFieldErrors(
      conditionIndex: nat,
      propertyError: Option<Option<QueryBuilderError>>, valueError: Option<Option<QueryBuilderError>>)
      requires conditionIndex < |conditionRows|
      modifies this
      ensures State() == FieldErrorsSet(old(State()), conditionIndex, propertyError, valueError)
    {
      if propertyError.Some? {
        var row := conditionRows[conditionIndex];
        conditionRows := conditionRows[conditionIndex := row.(propertyData := row.propertyData.(propertyError := propertyError.value))];
      }
      if valueError.Some? {
        conditionRows := conditionRows[conditionIndex := conditionRows[conditionIndex].(valueError := valueError.value)];
      }
    }

    method SetValue(value: Value, conditionIndex: nat)
      requires conditionIndex < |conditionRows|
      modifies this
      ensures State() == ValueSet(old(State()), conditionIndex, value)
    {
      conditionRows := conditionRows[conditionIndex := conditionRows[conditionIndex].(value := value)];
    }

    method ClearValue(conditionIndex: nat)
      requires conditionIndex < |conditionRows|
      modifies this
      ensures State() == ValueSet(old(State()), conditionIndex, NullValue)
    {
      conditionRows := conditionRows[conditionIndex := conditionRows[conditionIndex].(value := NullValue)];
    }

    /** `updateValue`, outside the date path (which parses the input through
        a remote service). */
    method UpdateValue(value: Value, conditionIndex: nat)
      requires conditionIndex < |conditionRows|
      requires !GoesToDateParser(State(), conditionIndex, value)
      modifies this
      ensures State() == ValueUpdated(old(State()), conditionIndex, value)
    {
      ClearFieldErrors(conditionIndex, ValueErrors);
      SetValue(value, conditionIndex);
    }

    method SetProperty(property: Option<Property>, conditionIndex: nat)
      requires conditionIndex < |conditionRows|
      modifies this
      ensures State() == PropertySet(old(State()), conditionIndex, property)
    {
      var row := conditionRows[conditionIndex];
      var data := row.propertyData;
      if property.Some? {
        data := data.(id := property.value.id, propertyLabel := property.value.propertyLabel,
                      dataType := Some(property.value.dataType));
      }
      conditionRows := conditionRows[conditionIndex := row.(propertyData := data)];
      conditionRows := conditionRows[conditionIndex := conditionRows[conditionIndex].(
        propertyData := conditionRows[conditionIndex].propertyData.(isPropertySet := true))];
    }

    method UnsetProperty(conditionIndex: nat)
      requires conditionIndex < |conditionRows|
      modifies this
      ensures State() == PropertyUnset(old(State()), conditionIndex)
    {
      var row := conditionRows[conditionIndex];
      conditionRows := conditionRows[conditionIndex := row.(propertyData := row.propertyData.(isPropertySet := false))];
      ClearFieldErrors(conditionIndex, PropertyErrors);
    }

    method UpdatePropertyValueRelation(relation: PropertyValueRelation, conditionIndex: nat)
      requires conditionIndex < |conditionRows|
      modifies this
      ensures State() == PropertyValueRelationSet(old(State()), conditionIndex, relation)
    {
      conditionRows := conditionRows[conditionIndex := conditionRows[conditionIndex].(propertyValueRelation := relation)];
    }

    method SetReferenceRelation(relation: ReferenceRelation, conditionIndex: nat)
      requires conditionIndex < |conditionRows|
      modifies this
      ensures State() == ReferenceRelationSet(old(State()), conditionIndex, relation)
    {
      conditionRows := conditionRows[conditionIndex := conditionRows[conditionIndex].(referenceRelation := relation)];
    }

    method SetNegate(negate: bool, conditionIndex: nat)
      requires conditionIndex < |conditionRows|
      modifies this
      ensures State() == NegateSet(old(State()), conditionIndex, negate)
    {
      conditionRows := conditionRows[conditionIndex := conditionRows[conditionIndex].(negate := negate)];
    }

    method SetSubclasses(subclasses: bool, conditionIndex: nat)
      requires conditionIndex < |conditionRows|
      modifies this
      ensures State() == SubclassesSet(old(State()), conditionIndex, subclasses)
    {
      conditionRows := conditionRows[conditionIndex := conditionRows[conditionIndex].(subclasses := subclasses)];
    }

    method SetConditionRelation(relation: Option<ConditionRelation>, conditionIndex: nat)
      requires conditionIndex < |conditionRows|
      modifies this
      ensures State() == ConditionRelationSet(old(State()), conditionIndex, relation)
    {
      conditionRows := conditionRows[conditionIndex := conditionRows[conditionIndex].(conditionRelation := relation)];
    }

    method SetLimit(newLimit: Limit)
      modifies this
      ensures State() == old(State()).(limit := newLimit)
    {
      limit := newLimit;
    }

    method SetUseLimit(newUseLimit: bool)
      modifies this
      ensures State() == old(State()).(useLimit := newUseLimit)
    {
      useLimit := newUseLimit;
    }

    method SetOmitLabels(newOmitLabels: bool)
      modifies this
      ensures State() == old(State()).(omitLabels := newOmitLabels)
    {
      omitLabels := newOmitLabels;
    }

    method SetErrors(newErrors: seq<QueryBuilderError>)
      modifies this
      ensures State() == old(State()).(errors := newErrors)
    {
      errors := newErrors;
    }

    method AddCondition(conditionId: string)
      modifies this
      ensures State() == old(State()).(conditionRows := RowsAdded(old(conditionRows), conditionId))
    {
      conditionRows := conditionRows + [FreshConditionRow(|conditionRows| == 0, conditionId)];
    }

    /** `removeCondition`, with the first remaining row always reset (see
        `RowsRemovedAsWritten` for the source's own rule). */
    method RemoveCondition(conditionIndex: nat)
      modifies this
      ensures State() == old(State()).(conditionRows := RowsRemoved(old(conditionRows), conditionIndex))
    {
      if conditionIndex < |conditionRows| {
        conditionRows := conditionRows[..conditionIndex] + conditionRows[conditionIndex + 1..];
      }
      if |conditionRows| > 0 {
        conditionRows := conditionRows[0 := conditionRows[0].(conditionRelation := None)];
      }
    }

    method SetConditionAsLimitedSupport(conditionIndex: nat)
      requires conditionIndex < |conditionRows|
      modifies this
      ensures State() == MarkedLimitedSupport(old(State()), conditionIndex)
    {
      UpdatePropertyValueRelation(Regardless, conditionIndex);
      UpdateValue(NullValue, conditionIndex);
      SetFieldErrors(conditionIndex, Some(Some(LimitedSupportNote)), None);
    }

    method UpdateProperty(property: Property, conditionIndex: nat)
      requires conditionIndex < |conditionRows|
      modifies this
      ensures State() == PropertyUpdated(old(State()), conditionIndex, property)
    {
      var oldDatatype := conditionRows[conditionIndex].propertyData.dataType;
      if oldDatatype.Some? && oldDatatype.value != "" && oldDatatype.value != property.dataType {
        ClearValue(conditionIndex);
      }
      SetProperty(Some(property), conditionIndex);
      if property.dataType !in AllowedDataTypes {
        SetConditionAsLimitedSupport(conditionIndex);
      } else {
        ClearFieldErrors(conditionIndex, PropertyErrors);
      }
    }

    method ValidateLimit()
      modifies this
      ensures State() == LimitValidated(old(State()))
    {
      if limit.LimitUndefined? {
        SetLimit(LimitNumber(DefaultLimit));
        return;
      }
      if useLimit && limit.LimitNull? {
        SetErrors([Validator.IncompleteFormError]);
        return;
      }
    }

    /** The first loop of `validateForm`: each row's field errors stored,
        in order. */
    method StoreFieldErrors(fieldErrors: seq<Validator.ConditionErrors>)
      requires |fieldErrors| <= |conditionRows|
      modifies this
      ensures State() == FieldErrorsApplied(old(State()), fieldErrors)
    {
      ghost var start := State();
      var k := 0;
      while k < |fieldErrors|
        invariant k <= |fieldErrors| <= |conditionRows| == |start.conditionRows|
        invariant State() == FieldErrorsApplied(start, fieldErrors[..k])
      {
        assert fieldErrors[..k + 1][..k] == fieldErrors[..k];
        SetFieldErrors(k, Some(fieldErrors[k].property), Some(fieldErrors[k].value));
        k := k + 1;
      }
      assert fieldErrors[..k] == fieldErrors;
    }

    /** The second loop of `validateForm`: the limited-support marking set
        again on every row that needs it. */
    method ReapplyLimitedSupport()
      modifies this
      ensures State() == LimitedSupportReapplied(old(State()), |old(conditionRows)|)
    {
      ghost var start := State();
      var k := 0;
      while k < |conditionRows|
        invariant |conditionRows| == |start.conditionRows|
        invariant k <= |conditionRows|
        invariant State() == LimitedSupportReapplied(start, k)
      {
        ReapplyLimitedSupportAt(start, k);
        k := k + 1;
      }
    }

    /** One step of `validateForm`'s loop over the rows: the row at `k` is
        marked when it needs limited support. */
    method ReapplyLimitedSupportAt(ghost start: RootState, k: nat)
      requires k < |conditionRows| == |start.conditionRows|
      requires State() == LimitedSupportReapplied(start, k)
      modifies this
      ensures |conditionRows| == |start.conditionRows|
      ensures State() == LimitedSupportReapplied(start, k + 1)
    {
      if NeedsLimitedSupport(conditionRows[k]) {
        SetConditionAsLimitedSupport(k);
      }
    }

    method ValidateForm()
      requires |conditionRows| > 0
      modifies this
      ensures State() == FormValidated(old(State()))
    {
      var result := Validator.Validate(FormValues(conditionRows));
      SetErrors(result.formErrors);
      StoreFieldErrors(result.fieldErrors);
      ReapplyLimitedSupport();
      ValidateLimit();
    }
  }
}
