/** Patterns for a condition on a string, external-id or url property. */
module StringValuePatternBuilder {
  import opened Common
  import opened DataModel
  import opened SparqlAst
  import opened SyntaxBuilder
  import opened TripleBuilder

  const StringDataTypes: seq<string> := ["string", "external-id", "url"]

  /** `?statement{N}`: the index is appended without a separator. */
  function StatementVariable(index: nat): (v: Term)
    ensures v.Variable? && v.name == "statement" + NatToString(index)
  {
    VariableFromName("statement" + NatToString(index))
  }

  /** Different conditions get different statement variables. */
  lemma StatementVariableInjective(i: nat, j: nat)
    ensures StatementVariable(i) == StatementVariable(j) ==> i == j
  {
    if StatementVariable(i) == StatementVariable(j) {
      var a := StatementVariable(i).name;
      assert a[9..] == NatToString(i);
      assert StatementVariable(j).name[9..] == NatToString(j);
      NatToStringInjective(i, j);
    }
  }

  /** The value as an RDF term: an IRI for url properties, a plain literal
      for the others. */
  function ValueTerm(value: string, isUrl: bool): (t: Term)
    ensures isUrl ==> t.NamedNode? && t.iri == Absolute(value)
    ensures !isUrl ==> t.Literal? && t.lexical == value && t.literalType.None?
  {
    if isUrl then NamedNode(Absolute(value)) else Literal(value, None)
  }

  /** The blank node a "regardless of value" condition matches any value
      with; the repeat suffix keeps two such nodes for one property apart. */
  function AnyValueLabel(propertyId: string, suffix: string): (s: string)
    ensures |s| >= 8 + |propertyId| && s[..8 + |propertyId|] == "anyValue" + propertyId
    ensures suffix == "" ==> s == "anyValue" + propertyId
    ensures suffix != "" ==> s[8 + |propertyId|..] == "_" + suffix
  {
    if suffix != "" then "anyValue" + propertyId + "_" + suffix else "anyValue" + propertyId
  }

  /** The object of the statement-to-value triple: the value for Matching,
      a blank node for Regardless, `?instance` for NotMatching; the order
      relations are not supported for strings. */
  function ObjectTerm(propertyId: string, relation: PropertyValueRelation, value: string,
                      suffix: string, isUrl: bool): (r: Result<Term, BuildError>)
    ensures r.Err? <==> relation == LessThan || relation == MoreThan
    ensures r.Err? ==> r.error == UnsupportedRelation(relation)
    ensures relation == Matching ==> r == Ok(ValueTerm(value, isUrl))
    ensures relation == Regardless ==> r.Ok? && r.value.BlankNode?
                                       && r.value.blankLabel == AnyValueLabel(propertyId, suffix)
    ensures relation == NotMatching ==> r == Ok(Variable("instance"))
  {
    match relation
    case NotMatching => Ok(Variable("instance"))
    case Regardless => Ok(BlankNode(AnyValueLabel(propertyId, suffix)))
    case Matching => Ok(ValueTerm(value, isUrl))
    case _ => Err(UnsupportedRelation(relation))
  }

  /** `MINUS { ?item p:P/ps:P value }`: removes items that have the value
      in any statement of the property. */
  function NotMatchingPattern(propertyId: string, value: string, isUrl: bool): (p: Pattern)
    ensures p.Minus? && |p.patterns| == 1 && p.patterns[0].Bgp? && |p.patterns[0].triples| == 1
    ensures p.patterns[0].triples[0].subject == ItemVariable
    ensures p.patterns[0].triples[0].obj == ValueTerm(value, isUrl)
    ensures p.patterns[0].triples[0].pred
            == Path(Sequence, [PredicateIri(Prefixed(P, propertyId)), PredicateIri(Prefixed(Ps, propertyId))])
  {
    var t := PathTriple(ItemVariable, [StepIri(Prefixed(P, propertyId)), StepIri(Prefixed(Ps, propertyId))],
                        ValueTerm(value, isUrl));
    Minus([BgpPattern([t])])
  }

  /** `?item p:P ?statement{N}. ?statement{N} (ps:P) object`. */
  function StatementBgp(propertyId: string, index: nat, obj: Term): (p: Pattern)
    ensures p.Bgp? && |p.triples| == 2
    ensures p.triples[0] == Triple(ItemVariable, PredicateIri(Prefixed(P, propertyId)), StatementVariable(index))
    ensures p.triples[1] == Triple(StatementVariable(index), Path(Sequence, [PredicateIri(Prefixed(Ps, propertyId))]), obj)
  {
    var statement := StatementVariable(index);
    BgpPattern([SimpleTriple(ItemVariable, Prefixed(P, propertyId), statement),
                PathTriple(statement, [StepIri(Prefixed(Ps, propertyId))], obj)])
  }

  /** The statement BGP joins its two triples on the condition's statement
      variable, and the BGPs of two different conditions share no statement
      variable, so they meet only on `?item`. */
  lemma StatementBgpJoin(p: string, i: nat, o: Term, q: string, j: nat, o': Term)
    ensures var b := StatementBgp(p, i, o);
            b.triples[0].subject == ItemVariable && b.triples[0].obj == b.triples[1].subject
            && b.triples[1].obj == o
    ensures i != j ==> StatementBgp(p, i, o).triples[1].subject != StatementBgp(q, j, o').triples[1].subject
  {
    StatementVariableInjective(i, j);
  }

  /** The triple the NotMatching `MINUS` removes is the Matching statement
      BGP with its statement variable projected out: the same endpoints,
      and the path `p:P/ps:P` is the two hops of that BGP in order. */
  lemma NotMatchingIsStatementPath(propertyId: string, value: string, isUrl: bool, index: nat)
    ensures var t := NotMatchingPattern(propertyId, value, isUrl).patterns[0].triples[0];
            var b := StatementBgp(propertyId, index, ValueTerm(value, isUrl));
            t.subject == b.triples[0].subject && t.obj == b.triples[1].obj
            && t.pred.Path? && t.pred.pathType == b.triples[1].pred.pathType
            && t.pred.items == [b.triples[0].pred] + b.triples[1].pred.items
  {
  }

  /** The statement pattern, grouped with the reference filter when there is
      one. */
  function WithReferenceFilter(bgp: Pattern, filter: Option<Pattern>): (ps: seq<Pattern>)
    ensures filter.None? ==> ps == [bgp]
    ensures filter.Some? ==> ps == [Group([bgp, filter.value])]
  {
    if filter.Some? then [Group([bgp, filter.value])] else [bgp]
  }

  /** The patterns of one string condition (`buildValuePatternFromCondition`). */
  function StringPatterns(c: Condition, index: nat, suffix: string): (r: Result<seq<Pattern>, BuildError>)
    ensures r.Err? <==> c.dataType !in StringDataTypes || !c.value.StringValue?
                        || c.propertyValueRelation == LessThan || c.propertyValueRelation == MoreThan
    ensures c.dataType !in StringDataTypes ==> r == Err(UnexpectedDatatype(c.dataType))
    ensures c.dataType in StringDataTypes && !c.value.StringValue? ==> r == Err(UnexpectedValueType)
    ensures r.Ok? ==> |r.value| == if c.propertyValueRelation == NotMatching then 2 else 1
    ensures r.Ok? ==> (r.value[0].Minus? <==> c.negate)
    ensures r.Ok? && c.propertyValueRelation == NotMatching ==>
              r.value[1] == NotMatchingPattern(c.propertyId, c.value.text, c.dataType == "url")
  {
    if c.dataType !in StringDataTypes then Err(UnexpectedDatatype(c.dataType))
    else if !c.value.StringValue? then Err(UnexpectedValueType)
    else
      var isUrl := c.dataType == "url";
      var obj :- ObjectTerm(c.propertyId, c.propertyValueRelation, c.value.text, suffix, isUrl);
      var grouped := WithReferenceFilter(StatementBgp(c.propertyId, index, obj),
                                         ReferenceFilterPattern(c.referenceRelation, StatementVariable(index)));
      var negated := if c.negate then [Minus(grouped)] else grouped;
      Ok(if c.propertyValueRelation == NotMatching
         then negated + [NotMatchingPattern(c.propertyId, c.value.text, isUrl)]
         else negated)
  }

  /** What sits at the head of a successful result: the statement pattern
      (with the reference filter grouped in when references matter), inside
      one MINUS when the condition is negated; its object is the term the
      relation asks for. */
  lemma StringPatternsHead(c: Condition, index: nat, suffix: string)
    requires StringPatterns(c, index, suffix).Ok?
    ensures var r := StringPatterns(c, index, suffix).value;
            var obj := ObjectTerm(c.propertyId, c.propertyValueRelation, c.value.text, suffix, c.dataType == "url").value;
            var inner := WithReferenceFilter(StatementBgp(c.propertyId, index, obj),
                                             ReferenceFilterPattern(c.referenceRelation, StatementVariable(index)));
            (c.negate ==> r[0] == Minus(inner)) && (!c.negate ==> [r[0]] == inner)
  {
  }

  /** A negated NotMatching condition yields two sibling MINUS nodes: the
      negation does not cover the not-matching exclusion. */
  lemma NegatedNotMatchingTwoMinus(c: Condition, index: nat, suffix: string)
    requires StringPatterns(c, index, suffix).Ok?
    requires c.negate && c.propertyValueRelation == NotMatching
    ensures var r := StringPatterns(c, index, suffix).value;
            |r| == 2 && r[0].Minus? && r[1].Minus?
  {
  }
}
