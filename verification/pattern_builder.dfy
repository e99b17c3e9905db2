/** The dispatch from a condition's datatype to the builder of its patterns,
    and the two one-triple patterns the query wrapper uses. */
module PatternBuilder {
  import opened Common
  import opened DataModel
  import opened SparqlAst
  import opened TripleBuilder
  import StringValuePatternBuilder
  import QuantityValuePatternBuilder
  import DateValuePatternBuilder

  /** What the compiler is given besides the query: the builders for entity
      values and for datatypes with limited support, whose source is not
      part of this model, and the configured conversion property. */
  datatype BuildContext = BuildContext(
    entityBuilder: (string, Condition, nat, string) -> Result<seq<Pattern>, BuildError>,
    limitedSupportBuilder: (Condition, nat, string) -> Result<seq<Pattern>, BuildError>,
    siConversionProperty: Option<string>)

  datatype ValueBuilder =
    | StringBuilder
    | EntityBuilder(dataType: string)
    | QuantityBuilder
    | DateBuilder
    | LimitedSupportBuilder

  const EntityBuilderDataTypes: seq<string> := ["wikibase-item", "wikibase-lexeme", "wikibase-sense", "wikibase-form"]

  /** `getValuePatternBuilderForDatatype`. */
  function BuilderForDatatype(dataType: string): (b: ValueBuilder)
    ensures b == StringBuilder <==> dataType in StringValuePatternBuilder.StringDataTypes
    ensures b.EntityBuilder? <==> dataType in EntityBuilderDataTypes
    ensures b.EntityBuilder? ==> b.dataType == dataType
    ensures b == QuantityBuilder <==> dataType == "quantity"
    ensures b == DateBuilder <==> dataType == "time"
  {
    if dataType in StringValuePatternBuilder.StringDataTypes then StringBuilder
    else if dataType in EntityBuilderDataTypes then EntityBuilder(dataType)
    else if dataType == "quantity" then QuantityBuilder
    else if dataType == "time" then DateBuilder
    else LimitedSupportBuilder
  }

  /** Every supported datatype has a builder of its own except
      `wikibase-property`, which is in the supported list but is given
      limited support. */
  lemma AllowedDataTypesDispatch(dataType: string)
    requires dataType in AllowedDataTypes
    ensures BuilderForDatatype(dataType) == LimitedSupportBuilder <==> dataType == "wikibase-property"
  {
  }

  /** `buildValuePatternFromCondition`: the chosen builder's result for the
      condition, index and suffix as given. */
  function ValuePatternFromCondition(ctx: BuildContext, c: Condition, index: nat, suffix: string): (r: Result<seq<Pattern>, BuildError>)
    ensures BuilderForDatatype(c.dataType) == StringBuilder ==> r == StringValuePatternBuilder.StringPatterns(c, index, suffix)
    ensures BuilderForDatatype(c.dataType).EntityBuilder? ==> r == ctx.entityBuilder(c.dataType, c, index, suffix)
    ensures BuilderForDatatype(c.dataType) == QuantityBuilder ==>
              r == QuantityValuePatternBuilder.QuantityPatterns(c, index, ctx.siConversionProperty)
    ensures BuilderForDatatype(c.dataType) == DateBuilder ==> r == DateValuePatternBuilder.DatePatterns(c, index)
    ensures BuilderForDatatype(c.dataType) == LimitedSupportBuilder ==> r == ctx.limitedSupportBuilder(c, index, suffix)
  {
    match BuilderForDatatype(c.dataType)
    case StringBuilder => StringValuePatternBuilder.StringPatterns(c, index, suffix)
    case EntityBuilder(dataType) => ctx.entityBuilder(dataType, c, index, suffix)
    case QuantityBuilder => QuantityValuePatternBuilder.QuantityPatterns(c, index, ctx.siConversionProperty)
    case DateBuilder => DateValuePatternBuilder.DatePatterns(c, index)
    case LimitedSupportBuilder => ctx.limitedSupportBuilder(c, index, suffix)
  }

  /** The dispatch never hands a builder a datatype that builder rejects. */
  lemma DispatchNeverRejectsDatatype(ctx: BuildContext, c: Condition, index: nat, suffix: string)
    requires BuilderForDatatype(c.dataType) == StringBuilder || BuilderForDatatype(c.dataType) == QuantityBuilder
    ensures ValuePatternFromCondition(ctx, c, index, suffix) != Err(UnexpectedDatatype(c.dataType))
  {
  }

  /** The label service's parameter triple as a BGP. */
  function LabelServicePattern(): (p: Pattern)
    ensures p.Bgp? && p.triples == [LabelServiceTriple]
  {
    Bgp([LabelServiceTriple])
  }

  /** A BGP every item matches. */
  function AnyValuePattern(): (p: Pattern)
    ensures p.Bgp? && p.triples == [AnyValueTriple] && !p.Minus?
  {
    Bgp([AnyValueTriple])
  }
}
