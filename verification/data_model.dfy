/** The value types the query builder passes around: the relations a user can
    pick, the error records shown in the form, the supported property
    datatypes, and the query representation the compiler consumes. */
module DataModel {
  import opened Common

  /** How a condition's value is compared with the statement value. */
  datatype PropertyValueRelation = Matching | NotMatching | Regardless | LessThan | MoreThan

  /** Whether a statement must, must not, or may carry a reference. */
  datatype ReferenceRelation = WithReferences | WithoutReferences | ReferencesRegardless

  /** Logical relation of a condition to the condition above it. */
  datatype ConditionRelation = And | Or

  datatype ErrorType = Error | Warning | Notice

  /** Which part of a quantity input an error is about. */
  datatype Subproperty = NumberPart | UnitPart | BothParts

  /** An error message key with its severity; quantity errors add a subproperty. */
  datatype QueryBuilderError = QueryBuilderError(message: string, errorType: ErrorType, subproperty: Option<Subproperty>)

  function BaseError(message: string, errorType: ErrorType): QueryBuilderError
  {
    QueryBuilderError(message, errorType, None)
  }

  /** The property datatypes the builder supports fully; every other one gets
      limited support. */
  const AllowedDataTypes: seq<string> := [
    "string", "external-id", "url", "wikibase-item", "wikibase-lexeme",
    "quantity", "time", "wikibase-sense", "wikibase-form", "wikibase-property"
  ]

  /** The datatypes whose store value is an entity reference `{id, label}`. */
  const EntityDataTypes: seq<string> := [
    "wikibase-item", "wikibase-lexeme", "wikibase-sense", "wikibase-form", "wikibase-property"
  ]

  /** A condition value as the compiler receives it: a string, a quantity
      with an optional unit id, or a date/time with its precision. `Undefined`
      is JavaScript's undefined (reading `.id` of a plain string), `Malformed`
      stands for an object whose fields do not fit the datatype. */
  datatype ConditionValue =
    | StringValue(text: string)
    | QuantityValue(amount: int, unit: Option<string>)
    | DateTimeValue(time: string, precision: int)
    | UndefinedValue
    | MalformedValue

  /** One condition of a query representation. */
  datatype Condition = Condition(
    propertyId: string,
    value: ConditionValue,
    dataType: string,
    propertyValueRelation: PropertyValueRelation,
    referenceRelation: ReferenceRelation,
    subclasses: bool,
    conditionRelation: Option<ConditionRelation>,
    negate: bool)

  /** What the compiler consumes: the conditions in declaration order, an
      optional limit and whether to leave out the label service. */
  datatype QueryRepresentation = QueryRepresentation(
    conditions: seq<Condition>,
    limit: Option<int>,
    omitLabels: bool)

  /** The errors the compiler throws. */
  datatype BuildError =
    | UnexpectedDatatype(dataType: string)
    | UnexpectedValueType
    | UnsupportedRelation(relation: PropertyValueRelation)
    | UnexpectedQuantityValue
    | MissingConversionProperty
    | UnexpectedDateValue
    | UnexpectedPrecision(precision: int)
    | DateNotInExpectedFormat(date: string)
    | UnexpectedRelation(relation: PropertyValueRelation)
    | ConditionIndexNotInitialized
    | UndefinedCondition
    | CollaboratorFailure(message: string)
}
