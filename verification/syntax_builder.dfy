/** Constructors for the syntax-tree nodes the pattern builders assemble:
    triples, property paths, variables, basic graph patterns, filters,
    operations and typed literals. */
module SyntaxBuilder {
  import opened Common
  import opened SparqlAst

  /** One item of a path the caller asks for: an IRI, or a path built earlier. */
  datatype PathStep = StepIri(iri: Iri) | StepPath(path: Predicate)

  function StepPredicate(step: PathStep): Predicate
  {
    match step
    case StepIri(iri) => PredicateIri(iri)
    case StepPath(p) => p
  }

  /** A triple whose predicate is the single IRI given. */
  function SimpleTriple(subject: Term, pred: Iri, obj: Term): (t: Triple)
    ensures t.subject == subject && t.obj == obj
    ensures t.pred.PredicateIri? && t.pred.iri == pred
  {
    Triple(subject, PredicateIri(pred), obj)
  }

  function PropertyPath(pathType: PathType, items: seq<Predicate>): Predicate
  {
    Path(pathType, items)
  }

  /** A triple whose predicate is the `/` sequence of the given steps: IRIs
      become named nodes, paths are kept as they are, count and order stay. */
  function PathTriple(subject: Term, steps: seq<PathStep>, obj: Term): (t: Triple)
    ensures t.subject == subject && t.obj == obj
    ensures t.pred.Path? && t.pred.pathType == Sequence
    ensures |t.pred.items| == |steps|
    ensures forall k :: 0 <= k < |steps| && steps[k].StepIri? ==>
              t.pred.items[k] == PredicateIri(steps[k].iri)
    ensures forall k :: 0 <= k < |steps| && steps[k].StepPath? ==>
              t.pred.items[k] == steps[k].path
  {
    var items := seq(|steps|, k requires 0 <= k < |steps| => StepPredicate(steps[k]));
    Triple(subject, PropertyPath(Sequence, items), obj)
  }

  function VariableFromName(name: string): (v: Term)
    ensures v.Variable? && v.name == name
  {
    Variable(name)
  }

  function BgpPattern(triples: seq<Triple>): (p: Pattern)
    ensures p.Bgp? && p.triples == triples
  {
    Bgp(triples)
  }

  /** A binary operation: exactly the two operands, left first. */
  function OperationsExpression(left: Expr, operator: Operator, right: Expr): (e: Expr)
    ensures e.Operation? && e.operator == operator && e.args == [left, right]
  {
    Operation(operator, [left, right])
  }

  /** A filter over the binary operation of the two operands. */
  function OperatorFilterPattern(left: Expr, operator: Operator, right: Expr): (p: Pattern)
    ensures p.Filter? && p.expression.Operation?
    ensures p.expression.operator == operator && p.expression.args == [left, right]
  {
    Filter(OperationsExpression(left, operator, right))
  }

  /** An `xsd:decimal` literal holding the decimal text of the number. */
  function DecimalLiteral(n: int): (t: Term)
    ensures t.Literal? && t.literalType == Some(XsdDecimal) && t.lexical == IntToString(n)
  {
    Literal(IntToString(n), Some(XsdDecimal))
  }

  /** An `xsd:dateTime` literal carrying the lexical form verbatim. */
  function DateTimeLiteral(dateTime: string): (t: Term)
    ensures t.Literal? && t.literalType == Some(XsdDateTime) && t.lexical == dateTime
  {
    Literal(dateTime, Some(XsdDateTime))
  }

  /** Different numbers give different decimal literals: the literal's text
      reads back as the number. */
  lemma DecimalLiteralInjective(a: int, b: int)
    ensures DecimalLiteral(a) == DecimalLiteral(b) ==> a == b
  {
    IntToStringRoundTrip(a);
    IntToStringRoundTrip(b);
    if DecimalLiteral(a) == DecimalLiteral(b) {
      var s := IntToString(a);
      assert s == IntToString(b);
      if a >= 0 && b >= 0 {
        NatToStringInjective(a, b);
      } else if a < 0 && b < 0 {
        assert DigitsValue(s[1..]) == -a && DigitsValue(s[1..]) == -b;
      }
    }
  }
}
