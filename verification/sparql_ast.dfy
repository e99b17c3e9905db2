/** The SPARQL 1.1 SELECT syntax tree the compiler produces, in the node
    vocabulary of the sparqljs renderer (which is not part of this model). */
module SparqlAst {
  import opened Common

  /** The prefixes the source takes from its namespace table; their IRIs do
      not matter to the compiler, only which prefix a name is built from. */
  datatype Namespace = P | Ps | Psv | Psn | Wd | Wdt | Wikibase | Hint | Xsd | Prov | Bd

  datatype Iri = Prefixed(ns: Namespace, local: string) | Absolute(text: string)

  datatype Term =
    | Variable(name: string)
    | NamedNode(iri: Iri)
    | BlankNode(blankLabel: string)
    | Literal(lexical: string, literalType: Option<Iri>)

  /** Property path operators of section 9 of the SPARQL 1.1 Query Language
      recommendation: `|`, `/`, `^`, `+`, `*` and `!`. */
  datatype PathType = Alternative | Sequence | Inverse | OneOrMore | ZeroOrMore | Negated

  /** A triple's predicate: one IRI or a property path over further predicates. */
  datatype Predicate = PredicateIri(iri: Iri) | Path(pathType: PathType, items: seq<Predicate>)

  datatype Triple = Triple(subject: Term, pred: Predicate, obj: Term)

  datatype Operator =
    | Equal | NotEqual | Less | Greater | LessOrEqual | GreaterOrEqual
    | LogicalAnd | LogicalOr | Times | Exists | NotExists

  datatype Expr =
    | TermExpr(term: Term)
    | Operation(operator: Operator, args: seq<Expr>)
    | PatternArg(pattern: Pattern)

  datatype Pattern =
    | Bgp(triples: seq<Triple>)
    | Filter(expression: Expr)
    | Bind(variable: Term, expression: Expr)
    | Union(patterns: seq<Pattern>)
    | Group(patterns: seq<Pattern>)
    | Minus(patterns: seq<Pattern>)
    | Service(name: Term, patterns: seq<Pattern>, silent: bool)
    | SubQuery(query: SelectQuery)

  /** The inner query of a label-wrapped query has its prefix table emptied. */
  datatype Prefixes = StandardPrefixes | NoPrefixes

  datatype SelectQuery = SelectQuery(
    distinct: bool,
    variables: seq<Term>,
    where: seq<Pattern>,
    limit: Option<int>,
    prefixes: Prefixes)

  const XsdDecimal: Iri := Absolute("http://www.w3.org/2001/XMLSchema#decimal")
  const XsdDateTime: Iri := Absolute("http://www.w3.org/2001/XMLSchema#dateTime")

  const ItemVariable: Term := Variable("item")
}
