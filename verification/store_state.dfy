/** The form state the application keeps (one row per condition, the form
    errors, the limit settings) and the records a fresh state starts from. */
module StoreState {
  import opened Common
  import opened DataModel

  const DefaultLimit: int := 100

  /** The property chosen in a row; `dataType` is `null` until one is chosen. */
  datatype PropertyData = PropertyData(
    id: string,
    propertyLabel: string,
    dataType: Option<string>,
    propertyError: Option<QueryBuilderError>,
    isPropertySet: bool)

  /** An entity reference as the lookups return it. */
  datatype ItemValue = ItemValue(id: string, itemLabel: string)

  /** The value of a parsed date, as the parse service returns it. */
  datatype ParseResult = ParseResult(
    time: string,
    precision: int,
    timezone: int,
    before: int,
    after: int,
    calendarModel: string)

  /** A row's value. `RawText` is a plain string (string datatypes, and what
      a restored URL leaves for some entity datatypes); `Missing` is
      JavaScript's `undefined`; `Malformed` is an object whose fields do not
      fit the row's datatype (what a hand-edited URL can produce). A
      quantity's amount is `None` when it is missing or not a number; an
      absent raw unit text is `""`. */
  datatype Value =
    | NullValue
    | Missing
    | Malformed
    | RawText(text: string)
    | Entity(entity: ItemValue)
    | Quantity(amount: Option<int>, unit: Option<ItemValue>, rawUnitInput: string)
    | Date(parseResult: Option<ParseResult>, formattedValue: Option<string>)

  /** JavaScript truthiness of a value: `null`, `undefined` and the empty
      string are falsy, every object is truthy. */
  predicate Truthy(v: Value)
  {
    match v
    case NullValue => false
    case Missing => false
    case RawText(text) => text != ""
    case _ => true
  }

  datatype ConditionRow = ConditionRow(
    propertyData: PropertyData,
    value: Value,
    valueError: Option<QueryBuilderError>,
    propertyValueRelation: PropertyValueRelation,
    referenceRelation: ReferenceRelation,
    subclasses: bool,
    conditionRelation: Option<ConditionRelation>,
    negate: bool,
    conditionId: string)

  /** The limit field: a number, `null` (the input was cleared) or
      `undefined` (not set at all). */
  datatype Limit = LimitNumber(n: int) | LimitNull | LimitUndefined

  datatype RootState = RootState(
    conditionRows: seq<ConditionRow>,
    errors: seq<QueryBuilderError>,
    limit: Limit,
    useLimit: bool,
    omitLabels: bool)

  /** `newEmptyPropertyData`: no property chosen, carrying the given error. */
  function NewEmptyPropertyData(propertyError: Option<QueryBuilderError>): (p: PropertyData)
    ensures !p.isPropertySet && p.dataType.None? && p.id == "" && p.propertyLabel == ""
    ensures p.propertyError == propertyError
  {
    PropertyData("", "", None, propertyError, false)
  }

  /** `getFreshConditionRow`; the random row id is a parameter. Only the
      first row has no relation to the row above. */
  function FreshConditionRow(isFirstCondition: bool, conditionId: string): (row: ConditionRow)
    ensures row.propertyData == NewEmptyPropertyData(None)
    ensures row.value == NullValue && row.valueError.None?
    ensures row.propertyValueRelation == Matching && row.referenceRelation == ReferencesRegardless
    ensures !row.subclasses && !row.negate
    ensures row.conditionRelation.None? <==> isFirstCondition
    ensures !isFirstCondition ==> row.conditionRelation == Some(And)
    ensures row.conditionId == conditionId
  {
    ConditionRow(
      NewEmptyPropertyData(None), NullValue, None, Matching, ReferencesRegardless, false,
      if isFirstCondition then None else Some(And), false, conditionId)
  }

  /** The invariant the form keeps: the first row is related to nothing. */
  predicate FirstRowUnrelated(rows: seq<ConditionRow>)
  {
    |rows| > 0 ==> rows[0].conditionRelation.None?
  }

  /** `getInitialState`: one fresh first row, no errors, limit 100 in use,
      labels included. */
  function InitialState(conditionId: string): (s: RootState)
    ensures |s.conditionRows| == 1 && s.conditionRows[0].conditionRelation.None?
    ensures s.conditionRows == [FreshConditionRow(true, conditionId)]
    ensures s.errors == [] && s.limit == LimitNumber(DefaultLimit) && s.useLimit && !s.omitLabels
  {
    RootState([FreshConditionRow(true, conditionId)], [], LimitNumber(DefaultLimit), true, false)
  }
}
