/** Patterns for a condition on a quantity property: any amount, an amount
    compared without a unit, or an amount converted to the coherent SI unit
    through the configured conversion property. */
module QuantityValuePatternBuilder {
  import opened Common
  import opened DataModel
  import opened SparqlAst
  import opened SyntaxBuilder
  import opened TripleBuilder
  import StringValuePatternBuilder

  /** The comparison a relation asks for; Regardless asks for none. */
  function FilterOperator(relation: PropertyValueRelation): (r: Option<Operator>)
    ensures r.None? <==> relation == Regardless
    ensures relation == Matching ==> r == Some(Equal)
    ensures relation == NotMatching ==> r == Some(NotEqual)
    ensures relation == LessThan ==> r == Some(Less)
    ensures relation == MoreThan ==> r == Some(Greater)
  {
    match relation
    case Matching => Some(Equal)
    case NotMatching => Some(NotEqual)
    case LessThan => Some(Less)
    case MoreThan => Some(Greater)
    case Regardless => None
  }

  /** Different relations never compare with the same operator. */
  lemma FilterOperatorInjective(a: PropertyValueRelation, b: PropertyValueRelation)
    requires FilterOperator(a).Some?
    ensures FilterOperator(a) == FilterOperator(b) ==> a == b
  {
  }

  /** The configured conversion property; unset and empty both fail. */
  function SiConversionPropertyId(configured: Option<string>): (r: Result<string, BuildError>)
    ensures r.Ok? <==> configured.Some? && configured.value != ""
    ensures r.Ok? ==> r.value == configured.value
    ensures r.Err? ==> r.error == MissingConversionProperty
  {
    if configured.None? || configured.value == "" then Err(MissingConversionProperty)
    else Ok(configured.value)
  }

  /** `?item p:P ?statement{N}. ?statement{N} psv:P/wikibase:quantityAmount ?numericQuantity`. */
  function AmountBgp(propertyId: string, index: nat): (p: Pattern)
    ensures p.Bgp? && |p.triples| == 2
    ensures p.triples[0].subject == ItemVariable
    ensures p.triples[0].obj == StringValuePatternBuilder.StatementVariable(index)
    ensures p.triples[1].subject == StringValuePatternBuilder.StatementVariable(index)
    ensures p.triples[1].obj == Variable("numericQuantity")
  {
    var statement := StringValuePatternBuilder.StatementVariable(index);
    BgpPattern([SimpleTriple(ItemVariable, Prefixed(P, propertyId), statement),
                PathTriple(statement, [StepIri(Prefixed(Psv, propertyId)), StepIri(Prefixed(Wikibase, "quantityAmount"))],
                           Variable("numericQuantity"))])
  }

  /** The optional reference filter on the condition's statement, as a list. */
  function ReferenceFilterList(relation: ReferenceRelation, index: nat): (ps: seq<Pattern>)
    ensures |ps| == if relation == ReferencesRegardless then 0 else 1
    ensures |ps| == 1 ==> ps[0] == ReferenceFilterPattern(relation, StringValuePatternBuilder.StatementVariable(index)).value
  {
    var f := ReferenceFilterPattern(relation, StringValuePatternBuilder.StatementVariable(index));
    if f.Some? then [f.value] else []
  }

  /** Any amount: the statement BGP and the optional reference filter. */
  function RegardlessPatterns(propertyId: string, index: nat, reference: ReferenceRelation): (ps: seq<Pattern>)
    ensures |ps| >= 1 && ps[0] == AmountBgp(propertyId, index)
    ensures ps[1..] == ReferenceFilterList(reference, index)
  {
    [AmountBgp(propertyId, index)] + ReferenceFilterList(reference, index)
  }

  /** `FILTER(?numericQuantity op "amount"^^xsd:decimal)` when the relation
      has an operator. */
  function AmountFilterList(amount: int, relation: PropertyValueRelation): (ps: seq<Pattern>)
    ensures |ps| == if relation == Regardless then 0 else 1
    ensures |ps| == 1 ==> ps[0] == OperatorFilterPattern(TermExpr(Variable("numericQuantity")),
                                                         FilterOperator(relation).value,
                                                         TermExpr(DecimalLiteral(amount)))
  {
    var op := FilterOperator(relation);
    if op.Some?
    then [OperatorFilterPattern(TermExpr(Variable("numericQuantity")), op.value, TermExpr(DecimalLiteral(amount)))]
    else []
  }

  /** An amount without a unit: the statement BGP, the amount filter, then
      the optional reference filter; no conversion lookup. */
  function UnitlessPatterns(propertyId: string, amount: int, index: nat, reference: ReferenceRelation,
                            relation: PropertyValueRelation): seq<Pattern>
  {
    [AmountBgp(propertyId, index)] + AmountFilterList(amount, relation) + ReferenceFilterList(reference, index)
  }

  /** Without a unit nothing is converted: no pattern binds a variable, the
      amount BGP is the only BGP and every later pattern is a filter; the
      only comparison is of `?numericQuantity` with the user's amount. */
  lemma UnitlessHasNoConversion(propertyId: string, amount: int, index: nat, reference: ReferenceRelation,
                                relation: PropertyValueRelation)
    ensures var ps := UnitlessPatterns(propertyId, amount, index, reference, relation);
            |ps| == 1 + (if relation == Regardless then 0 else 1) + (if reference == ReferencesRegardless then 0 else 1)
            && ps[0].Bgp? && ps[0].triples[|ps[0].triples| - 1].obj == Variable("numericQuantity")
            && forall k :: 1 <= k < |ps| ==> ps[k].Filter?
    ensures relation != Regardless ==>
              var ps := UnitlessPatterns(propertyId, amount, index, reference, relation);
              ps[1].expression.args == [TermExpr(Variable("numericQuantity")), TermExpr(DecimalLiteral(amount))]
  {
    var amountFilter := AmountFilterList(amount, relation);
    var refFilter := ReferenceFilterList(reference, index);
    var ps := UnitlessPatterns(propertyId, amount, index, reference, relation);
    assert ps[1..] == amountFilter + refFilter;
    forall k | 1 <= k < |ps|
      ensures ps[k].Filter?
    {
      if k - 1 < |amountFilter| {
        assert ps[k] == amountFilter[k - 1];
      } else {
        assert ps[k] == refFilter[k - 1 - |amountFilter|];
      }
    }
  }

  /** Regardless of value, the unitless patterns are the regardless
      patterns, whatever the amount: the amount filter is the only pattern
      the relation adds. */
  lemma UnitlessRegardlessIsRegardless(propertyId: string, amount: int, index: nat, reference: ReferenceRelation)
    ensures UnitlessPatterns(propertyId, amount, index, reference, Regardless)
            == RegardlessPatterns(propertyId, index, reference)
  {
    assert AmountFilterList(amount, Regardless) == [];
  }

  /** The part of the unit-converting patterns that does not mention the
      condition's statement: the user's amount and unit, the unit's
      conversion factor and coherent unit, and the converted amount. */
  function ConversionPatterns(amount: int, unit: string, conversionProperty: string): (ps: seq<Pattern>)
    ensures |ps| == 4
    ensures ps[0] == Bind(Variable("userQuantity"), TermExpr(DecimalLiteral(amount)))
    ensures ps[1] == Bind(Variable("userUnit"), TermExpr(NamedNode(Prefixed(Wd, unit))))
    ensures ps[2].Bgp? && |ps[2].triples| == 2
    ensures ps[2].triples[0].subject == Variable("userUnit") && ps[2].triples[0].obj == Variable("conversionFactor")
    ensures ps[2].triples[1].subject == Variable("userUnit") && ps[2].triples[1].obj == Variable("coherentUnit")
    ensures ps[3].Bind? && ps[3].variable == Variable("coherentUserQuantity")
    ensures ps[3].expression == Operation(Times, [TermExpr(Variable("userQuantity")), TermExpr(Variable("conversionFactor"))])
  {
    var userUnit := Variable("userUnit");
    var viaConversion := [StepIri(Prefixed(P, conversionProperty)), StepIri(Prefixed(Psv, conversionProperty))];
    [ Bind(Variable("userQuantity"), TermExpr(DecimalLiteral(amount))),
      Bind(userUnit, TermExpr(NamedNode(Prefixed(Wd, unit)))),
      BgpPattern([PathTriple(userUnit, viaConversion + [StepIri(Prefixed(Wikibase, "quantityAmount"))], Variable("conversionFactor")),
                  PathTriple(userUnit, viaConversion + [StepIri(Prefixed(Wikibase, "quantityUnit"))], Variable("coherentUnit"))]),
      Bind(Variable("coherentUserQuantity"),
           OperationsExpression(TermExpr(Variable("userQuantity")), Times, TermExpr(Variable("conversionFactor"))))
    ]
  }

  /** `?item p:P ?statement{N}` with the statement's normalised amount and
      its unit, which must be the coherent unit of the user's unit. */
  function NormalisedStatementBgp(propertyId: string, index: nat): (p: Pattern)
    ensures p.Bgp? && |p.triples| == 3
    ensures p.triples[0].subject == ItemVariable
    ensures p.triples[0].obj == StringValuePatternBuilder.StatementVariable(index)
    ensures p.triples[1].subject == StringValuePatternBuilder.StatementVariable(index)
    ensures p.triples[2].subject == StringValuePatternBuilder.StatementVariable(index)
    ensures p.triples[1].obj == Variable("statementQuantity")
    ensures p.triples[2].obj == Variable("coherentUnit")
  {
    var statement := StringValuePatternBuilder.StatementVariable(index);
    BgpPattern([SimpleTriple(ItemVariable, Prefixed(P, propertyId), statement),
                PathTriple(statement, [StepIri(Prefixed(Psn, propertyId)), StepIri(Prefixed(Wikibase, "quantityAmount"))],
                           Variable("statementQuantity")),
                PathTriple(statement, [StepIri(Prefixed(Psn, propertyId)), StepIri(Prefixed(Wikibase, "quantityUnit"))],
                           Variable("coherentUnit"))])
  }

  /** An amount with a unit, compared after conversion to the coherent unit;
      fails when no conversion property is configured. */
  function FullQuantityPatterns(amount: int, unit: string, index: nat, propertyId: string,
                                reference: ReferenceRelation, relation: PropertyValueRelation,
                                configured: Option<string>): (r: Result<seq<Pattern>, BuildError>)
    ensures r.Err? <==> SiConversionPropertyId(configured).Err?
    ensures r.Ok? ==> |r.value| == 5 + (if relation == Regardless then 0 else 1)
                                     + (if reference == ReferencesRegardless then 0 else 1)
  {
    var conversionProperty :- SiConversionPropertyId(configured);
    var op := FilterOperator(relation);
    var valueFilter := if op.Some?
      then [OperatorFilterPattern(TermExpr(Variable("statementQuantity")), op.value,
                                  TermExpr(Variable("coherentUserQuantity")))]
      else [];
    Ok(ConversionPatterns(amount, unit, conversionProperty) + [NormalisedStatementBgp(propertyId, index)]
       + valueFilter + ReferenceFilterList(reference, index))
  }

  /** With a conversion property, the patterns come in the source's order:
      the four conversion patterns, the statement BGP, the comparison unless
      the relation is Regardless, and the reference filter last. */
  lemma FullQuantityPatternsOrder(amount: int, unit: string, index: nat, propertyId: string,
                                  reference: ReferenceRelation, relation: PropertyValueRelation,
                                  configured: Option<string>)
    requires SiConversionPropertyId(configured).Ok?
    ensures var r := FullQuantityPatterns(amount, unit, index, propertyId, reference, relation, configured).value;
            r[..4] == ConversionPatterns(amount, unit, configured.value) &&
            r[4] == NormalisedStatementBgp(propertyId, index)
    ensures var r := FullQuantityPatterns(amount, unit, index, propertyId, reference, relation, configured).value;
            relation != Regardless ==>
              r[5] == OperatorFilterPattern(TermExpr(Variable("statementQuantity")), FilterOperator(relation).value,
                                            TermExpr(Variable("coherentUserQuantity")))
    ensures var r := FullQuantityPatterns(amount, unit, index, propertyId, reference, relation, configured).value;
            r[|r| - |ReferenceFilterList(reference, index)|..] == ReferenceFilterList(reference, index)
  {
    var head := ConversionPatterns(amount, unit, configured.value);
    var tail := ReferenceFilterList(reference, index);
    var r := FullQuantityPatterns(amount, unit, index, propertyId, reference, relation, configured).value;
    assert r[..4] == head;
    assert r[|r| - |tail|..] == tail;
  }

  /** With a unit, the patterns join up: the conversion lookups start at the
      bound user unit, the coherent unit found for it is the unit the
      statement's normalised value must have, the statement BGP links
      `?item` to its statement, and the comparison is of the statement's
      normalised amount with the converted user amount. */
  lemma FullQuantityJoin(amount: int, unit: string, index: nat, propertyId: string,
                         reference: ReferenceRelation, relation: PropertyValueRelation,
                         configured: Option<string>)
    requires SiConversionPropertyId(configured).Ok?
    ensures var r := FullQuantityPatterns(amount, unit, index, propertyId, reference, relation, configured).value;
            r[1].Bind? && r[2].Bgp? && r[4].Bgp? && |r[2].triples| == 2 && |r[4].triples| == 3
            && r[2].triples[0].subject == r[1].variable && r[2].triples[1].subject == r[1].variable
            && r[2].triples[1].obj == r[4].triples[2].obj
            && r[4].triples[0].subject == ItemVariable
            && r[4].triples[0].obj == r[4].triples[1].subject && r[4].triples[0].obj == r[4].triples[2].subject
    ensures var r := FullQuantityPatterns(amount, unit, index, propertyId, reference, relation, configured).value;
            relation != Regardless ==>
              r[3].Bind? && r[5].Filter? && r[5].expression.Operation?
              && r[5].expression.args == [TermExpr(r[4].triples[1].obj), TermExpr(r[3].variable)]
  {
    FullQuantityPatternsOrder(amount, unit, index, propertyId, reference, relation, configured);
  }

  /** A compared amount: the value must be a quantity; without a unit it is
      compared directly, with one after conversion. */
  function ValuePatterns(value: ConditionValue, relation: PropertyValueRelation, propertyId: string, index: nat,
                         reference: ReferenceRelation, configured: Option<string>): (r: Result<seq<Pattern>, BuildError>)
    ensures !value.QuantityValue? ==> r == Err(UnexpectedQuantityValue)
    ensures value.QuantityValue? && (value.unit.None? || relation == Regardless) ==>
              r == Ok(UnitlessPatterns(propertyId, value.amount, index, reference, relation))
    ensures value.QuantityValue? && value.unit.Some? && relation != Regardless ==>
              r == FullQuantityPatterns(value.amount, value.unit.value, index, propertyId, reference, relation, configured)
  {
    if !value.QuantityValue? then Err(UnexpectedQuantityValue)
    else if value.unit.None? || relation == Regardless then
      Ok(UnitlessPatterns(propertyId, value.amount, index, reference, relation))
    else FullQuantityPatterns(value.amount, value.unit.value, index, propertyId, reference, relation, configured)
  }

  /** The patterns of one quantity condition (`buildValuePatternFromCondition`). */
  function QuantityPatterns(c: Condition, index: nat, configured: Option<string>): (r: Result<seq<Pattern>, BuildError>)
    ensures r.Err? <==> c.dataType != "quantity"
                        || (c.propertyValueRelation != Regardless
                            && (!c.value.QuantityValue?
                                || (c.value.unit.Some? && SiConversionPropertyId(configured).Err?)))
    ensures c.dataType != "quantity" ==> r == Err(UnexpectedDatatype(c.dataType))
    ensures r.Ok? && c.negate ==> |r.value| == 1 && r.value[0].Minus?
    ensures r.Ok? ==>
              var p := if c.propertyValueRelation == Regardless
                then RegardlessPatterns(c.propertyId, index, c.referenceRelation)
                else ValuePatterns(c.value, c.propertyValueRelation, c.propertyId, index, c.referenceRelation, configured).value;
              r.value == if c.negate then [Minus(p)] else p
    ensures r.Ok? && !c.negate ==> |r.value| >= 1 && (r.value[0].Bgp? || r.value[0].Bind?)
    ensures r.Ok? && !c.negate && c.propertyValueRelation == Regardless ==>
              r.value == RegardlessPatterns(c.propertyId, index, c.referenceRelation)
  {
    if c.dataType != "quantity" then Err(UnexpectedDatatype(c.dataType))
    else
      var patterns :- if c.propertyValueRelation == Regardless
        then Ok(RegardlessPatterns(c.propertyId, index, c.referenceRelation))
        else ValuePatterns(c.value, c.propertyValueRelation, c.propertyId, index, c.referenceRelation, configured);
      Ok(if c.negate then [Minus(patterns)] else patterns)
  }

  /** Regardless of value, the value is never looked at and the conversion
      property is never consulted. */
  lemma RegardlessIgnoresValue(c: Condition, v: ConditionValue, index: nat, x: Option<string>, y: Option<string>)
    requires c.propertyValueRelation == Regardless
    ensures QuantityPatterns(c.(value := v), index, x) == QuantityPatterns(c, index, y)
  {
  }

  /** Without a unit, the conversion property is not consulted either. */
  lemma UnitlessIgnoresConversion(c: Condition, index: nat, x: Option<string>, y: Option<string>)
    requires c.value.QuantityValue? && c.value.unit.None?
    ensures QuantityPatterns(c, index, x) == QuantityPatterns(c, index, y)
  {
  }

  /** Only the statement variable carries the condition index: with a unit,
      the conversion part and the value filter are the same for every index. */
  lemma ConversionIndependentOfIndex(amount: int, unit: string, i: nat, j: nat, propertyId: string,
                                     reference: ReferenceRelation, relation: PropertyValueRelation,
                                     configured: Option<string>)
    requires SiConversionPropertyId(configured).Ok?
    ensures var ri := FullQuantityPatterns(amount, unit, i, propertyId, reference, relation, configured).value;
            var rj := FullQuantityPatterns(amount, unit, j, propertyId, reference, relation, configured).value;
            ri[..4] == rj[..4] && |ri| == |rj|
            && (relation != Regardless ==> ri[5] == rj[5])
  {
    FullQuantityPatternsOrder(amount, unit, i, propertyId, reference, relation, configured);
    FullQuantityPatternsOrder(amount, unit, j, propertyId, reference, relation, configured);
  }
}
