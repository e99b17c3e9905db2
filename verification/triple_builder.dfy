/** The small triples and the reference filter the pattern builders share.
    The source of this collaborator is not part of this model; the bodies
    here give the shapes the rendered queries show. */
module TripleBuilder {
  import opened Common
  import opened DataModel
  import opened SparqlAst

  /** `?statement prov:wasDerivedFrom ?reference`, the triple a reference
      filter tests for. */
  function ReferenceTriple(statement: Term): (t: Triple)
    ensures t.subject == statement && t.obj == Variable("reference")
  {
    Triple(statement, PredicateIri(Prefixed(Prov, "wasDerivedFrom")), Variable("reference"))
  }

  /** No filter when references do not matter; otherwise `FILTER(EXISTS {…})`
      for "with references" and `FILTER(NOT EXISTS {…})` for "without". */
  function ReferenceFilterPattern(relation: ReferenceRelation, statement: Term): (r: Option<Pattern>)
    ensures r.None? <==> relation == ReferencesRegardless
    ensures r.Some? ==> r.value.Filter? && r.value.expression.Operation?
    ensures r.Some? ==> r.value.expression.args == [PatternArg(Bgp([ReferenceTriple(statement)]))]
    ensures r.Some? ==> (r.value.expression.operator == Exists <==> relation == WithReferences)
    ensures r.Some? ==> (r.value.expression.operator == NotExists <==> relation == WithoutReferences)
  {
    match relation
    case ReferencesRegardless => None
    case WithReferences =>
      Some(Filter(Operation(Exists, [PatternArg(Bgp([ReferenceTriple(statement)]))])))
    case WithoutReferences =>
      Some(Filter(Operation(NotExists, [PatternArg(Bgp([ReferenceTriple(statement)]))])))
  }

  /** `bd:serviceParam wikibase:language "[AUTO_LANGUAGE]"`. */
  const LabelServiceTriple: Triple :=
    Triple(NamedNode(Prefixed(Bd, "serviceParam")), PredicateIri(Prefixed(Wikibase, "language")),
           Literal("[AUTO_LANGUAGE]", None))

  /** `?item wikibase:sitelinks _:anyValue`: every item matches it. */
  const AnyValueTriple: Triple :=
    Triple(ItemVariable, PredicateIri(Prefixed(Wikibase, "sitelinks")), BlankNode("anyValue"))
}
