/** The top level of the compiler: the condition tree is walked in order,
    each condition gets the next index and, when its property recurs with
    references regardless, a suffix; singles are spliced into the body, each
    OR-group becomes one UNION whose arms are groups (section 7 of the SPARQL
    1.1 Query Language recommendation); a body of MINUS blocks only (section
    8.2) gets an any-value pattern in front; the limit is applied and the
    query is wrapped in an outer query that asks the label service. */
module QueryObjectBuilder {
  import opened Common
  import opened DataModel
  import opened SparqlAst
  import opened ConditionTree
  import opened PatternBuilder

  // ---------------------------------------------------------------------
  // The repeated-property suffix

  predicate RegardlessOn(c: Condition, propertyId: string)
  {
    c.propertyId == propertyId && c.referenceRelation == ReferencesRegardless
  }

  /** How many conditions of the query are on `propertyId` with references
      regardless (`filter(...).length`). */
  function RegardlessCount(conditions: seq<Condition>, propertyId: string): (n: nat)
    ensures n <= |conditions|
  {
    if conditions == [] then 0
    else RegardlessCount(conditions[..|conditions| - 1], propertyId)
         + (if RegardlessOn(conditions[|conditions| - 1], propertyId) then 1 else 0)
  }

  /** The positions of those conditions. */
  function RegardlessPositions(conditions: seq<Condition>, propertyId: string): set<nat>
  {
    set k: nat | k < |conditions| && RegardlessOn(conditions[k], propertyId)
  }

  /** The count is the number of positions holding such a condition. */
  lemma {:induction false} RegardlessCountIsPositionCount(conditions: seq<Condition>, propertyId: string)
    ensures RegardlessCount(conditions, propertyId) == |RegardlessPositions(conditions, propertyId)|
    decreases |conditions|
  {
    if conditions != [] {
      var n := |conditions| - 1;
      var init := conditions[..n];
      RegardlessCountIsPositionCount(init, propertyId);
      var before := RegardlessPositions(init, propertyId);
      assert n !in before;
      if RegardlessOn(conditions[n], propertyId) {
        assert RegardlessPositions(conditions, propertyId) == before + {n};
      } else {
        assert RegardlessPositions(conditions, propertyId) == before;
      }
    }
  }

  /** `repeatingPropertyIndex`: the decimal index when the property occurs
      more than once with references regardless, otherwise empty. */
  function RepeatSuffix(conditions: seq<Condition>, propertyId: string, index: nat): string
  {
    if RegardlessCount(conditions, propertyId) > 1 then NatToString(index) else ""
  }

  /** The suffix is empty exactly when the property is not repeated, and
      otherwise reads back as the index. */
  lemma RepeatSuffixMeaning(conditions: seq<Condition>, propertyId: string, index: nat)
    ensures var s := RepeatSuffix(conditions, propertyId, index);
            && (s == "" <==> RegardlessCount(conditions, propertyId) <= 1)
            && (s != "" ==> AllDigits(s) && DigitsValue(s) == index)
  {
    NatToStringRoundTrip(index);
  }

  /** The suffix looks only at the property ids and reference relations of
      the conditions, not at their values or value relations. */
  lemma {:induction false} SuffixIgnoresValues(a: seq<Condition>, b: seq<Condition>, propertyId: string, index: nat)
    requires |a| == |b|
    requires forall k :: 0 <= k < |a| ==> a[k].propertyId == b[k].propertyId && a[k].referenceRelation == b[k].referenceRelation
    ensures RepeatSuffix(a, propertyId, index) == RepeatSuffix(b, propertyId, index)
  {
    CountIgnoresValues(a, b, propertyId);
  }

  lemma {:induction false} CountIgnoresValues(a: seq<Condition>, b: seq<Condition>, propertyId: string)
    requires |a| == |b|
    requires forall k :: 0 <= k < |a| ==> a[k].propertyId == b[k].propertyId && a[k].referenceRelation == b[k].referenceRelation
    ensures RegardlessCount(a, propertyId) == RegardlessCount(b, propertyId)
    decreases |a|
  {
    if a != [] {
      CountIgnoresValues(a[..|a| - 1], b[..|b| - 1], propertyId);
    }
  }

  // ---------------------------------------------------------------------
  // The body of the query

  /** What the compiler asks of its pattern builder: the patterns of one
      condition, given the condition's index and suffix. */
  type ConditionBuilder = (Condition, nat, string) -> Result<seq<Pattern>, BuildError>

  /** The pattern builder of the source: the dispatch on the datatype. */
  function Dispatch(ctx: BuildContext): (build: ConditionBuilder)
    ensures forall c, index, suffix :: build(c, index, suffix) == ValuePatternFromCondition(ctx, c, index, suffix)
  {
    (c: Condition, index: nat, suffix: string) => ValuePatternFromCondition(ctx, c, index, suffix)
  }

  /** The patterns of one condition, built with its index and suffix. */
  function ConditionPatterns(build: ConditionBuilder, rep: QueryRepresentation, c: Condition, index: nat): Result<seq<Pattern>, BuildError>
  {
    build(c, index, RepeatSuffix(rep.conditions, c.propertyId, index))
  }

  /** `buildUnion`'s arms: member `j` of a group whose first member has index
      `start` becomes a group of its patterns built with index `start + j`.
      A hole (`undefined`) fails when it is reached. */
  function UnionArms(build: ConditionBuilder, rep: QueryRepresentation, members: seq<Option<Condition>>, start: nat): (r: Result<seq<Pattern>, BuildError>)
    ensures r.Ok? ==> |r.value| == |members|
  {
    if members == [] then Ok([])
    else
      var n := |members| - 1;
      var arms :- UnionArms(build, rep, members[..n], start);
      match members[n]
      case None => Err(UndefinedCondition)
      case Some(c) =>
        var ps :- ConditionPatterns(build, rep, c, start + n);
        Ok(arms + [Group(ps)])
  }

  /** The arms of the first `i + 1` members: those of the first `i`, then
      member `i`'s group, unless something failed on the way. */
  lemma ArmsNext(build: ConditionBuilder, rep: QueryRepresentation, members: seq<Option<Condition>>, start: nat, i: nat)
    requires i < |members|
    ensures var before := UnionArms(build, rep, members[..i], start);
            var ps := if members[i].Some? then ConditionPatterns(build, rep, members[i].value, start + i) else Err(UndefinedCondition);
            UnionArms(build, rep, members[..i + 1], start)
              == if before.Err? then Err(before.error)
                 else if ps.Err? then Err(ps.error)
                 else Ok(before.value + [Group(ps.value)])
  {
    assert members[..i + 1][..i] == members[..i];
  }

  /** When the arms of the first `i + 1` members build, so do those of the
      first `i`, and member `i` is defined and builds. */
  lemma ArmsNextOk(build: ConditionBuilder, rep: QueryRepresentation, members: seq<Option<Condition>>, start: nat, i: nat)
    requires i < |members| && UnionArms(build, rep, members[..i + 1], start).Ok?
    ensures UnionArms(build, rep, members[..i], start).Ok? && MemberBuilds(build, rep, members, start, i)
    ensures UnionArms(build, rep, members[..i + 1], start).value
            == UnionArms(build, rep, members[..i], start).value + [Group(ConditionPatterns(build, rep, members[i].value, start + i).value)]
  {
    ArmsNext(build, rep, members, start, i);
  }

  /** A defined member that builds adds its group to the arms before it. */
  lemma ArmsExtend(build: ConditionBuilder, rep: QueryRepresentation, members: seq<Option<Condition>>, start: nat, i: nat, arms: seq<Pattern>)
    requires i < |members| && UnionArms(build, rep, members[..i], start) == Ok(arms)
    requires members[i].Some? && ConditionPatterns(build, rep, members[i].value, start + i).Ok?
    ensures UnionArms(build, rep, members[..i + 1], start)
              == Ok(arms + [Group(ConditionPatterns(build, rep, members[i].value, start + i).value)])
  {
    ArmsNext(build, rep, members, start, i);
  }

  /** A hole, or a member that fails, after arms that built: the union
      fails with that member's error. */
  lemma ArmsStopAt(build: ConditionBuilder, rep: QueryRepresentation, members: seq<Option<Condition>>, start: nat, i: nat)
    requires i < |members| && UnionArms(build, rep, members[..i], start).Ok?
    requires members[i].Some? ==> ConditionPatterns(build, rep, members[i].value, start + i).Err?
    ensures UnionArms(build, rep, members, start)
              == Err(if members[i].None? then UndefinedCondition else ConditionPatterns(build, rep, members[i].value, start + i).error)
  {
    ArmsNext(build, rep, members, start, i);
    ArmsPrefixFailure(build, rep, members, start, i + 1);
  }

  /** Member `j` of a group is defined and builds with index `start + j`. */
  predicate MemberBuilds(build: ConditionBuilder, rep: QueryRepresentation, members: seq<Option<Condition>>, start: nat, j: nat)
  {
    j < |members| && members[j].Some? && ConditionPatterns(build, rep, members[j].value, start + j).Ok?
  }

  /** When every member is defined and builds, so do the arms. */
  lemma {:induction false} UnionArmsBuild(build: ConditionBuilder, rep: QueryRepresentation, members: seq<Option<Condition>>, start: nat)
    requires forall j :: 0 <= j < |members| ==> MemberBuilds(build, rep, members, start, j)
    ensures UnionArms(build, rep, members, start).Ok?
    decreases |members|
  {
    if members != [] {
      var n := |members| - 1;
      var front := members[..n];
      forall j | 0 <= j < n
        ensures MemberBuilds(build, rep, front, start, j)
      {
        assert front[j] == members[j];
        assert MemberBuilds(build, rep, members, start, j);
      }
      UnionArmsBuild(build, rep, front, start);
      assert MemberBuilds(build, rep, members, start, n);
      ArmsNext(build, rep, members, start, n);
      assert members[..n + 1] == members;
    }
  }

  /** The arms succeed exactly when every member is defined and builds. */
  lemma UnionArmsOk(build: ConditionBuilder, rep: QueryRepresentation, members: seq<Option<Condition>>, start: nat)
    ensures UnionArms(build, rep, members, start).Ok?
            <==> (forall j :: 0 <= j < |members| ==> MemberBuilds(build, rep, members, start, j))
  {
    if UnionArms(build, rep, members, start).Ok? {
      UnionArmsElements(build, rep, members, start);
    } else if forall j :: 0 <= j < |members| ==> MemberBuilds(build, rep, members, start, j) {
      UnionArmsBuild(build, rep, members, start);
    }
  }

  /** Arm `j` is the group of member `j`'s patterns, built with index
      `start + j`. */
  lemma {:induction false} UnionArmAt(build: ConditionBuilder, rep: QueryRepresentation, members: seq<Option<Condition>>, start: nat, j: nat)
    requires j < |members| && UnionArms(build, rep, members, start).Ok?
    ensures MemberBuilds(build, rep, members, start, j)
    ensures UnionArms(build, rep, members, start).value[j] == Group(ConditionPatterns(build, rep, members[j].value, start + j).value)
    decreases |members|
  {
    var n := |members| - 1;
    var front := members[..n];
    assert members[..n + 1] == members;
    ArmsNextOk(build, rep, members, start, n);
    if j < n {
      UnionArmAt(build, rep, front, start, j);
      assert front[j] == members[j];
    }
  }

  /** Every arm is the group of its member's patterns. */
  lemma UnionArmsElements(build: ConditionBuilder, rep: QueryRepresentation, members: seq<Option<Condition>>, start: nat)
    requires UnionArms(build, rep, members, start).Ok?
    ensures forall j :: 0 <= j < |members| ==>
              MemberBuilds(build, rep, members, start, j)
              && UnionArms(build, rep, members, start).value[j] == Group(ConditionPatterns(build, rep, members[j].value, start + j).value)
  {
    forall j | 0 <= j < |members|
      ensures MemberBuilds(build, rep, members, start, j)
      ensures UnionArms(build, rep, members, start).value[j] == Group(ConditionPatterns(build, rep, members[j].value, start + j).value)
    {
      UnionArmAt(build, rep, members, start, j);
    }
  }

  /** The patterns one element of the tree contributes: a single's own
      patterns, spliced in; a group's one UNION node. */
  function ElementPatterns(build: ConditionBuilder, rep: QueryRepresentation, e: RootElement, start: nat): (r: Result<seq<Pattern>, BuildError>)
  {
    match e
    case Single(c) => ConditionPatterns(build, rep, c, start)
    case ConditionGroup(members) =>
      var arms :- UnionArms(build, rep, members, start);
      Ok([Union(arms)])
  }

  /** The body, element by element; each element's first condition has the
      index that counts the members of the elements before it. */
  function WherePatterns(build: ConditionBuilder, rep: QueryRepresentation, tree: seq<RootElement>): (r: Result<seq<Pattern>, BuildError>)
  {
    if tree == [] then Ok([])
    else
      var n := |tree| - 1;
      var where :- WherePatterns(build, rep, tree[..n]);
      var ps :- ElementPatterns(build, rep, tree[n], |Flatten(tree[..n])|);
      Ok(where + ps)
  }

  /** The body of the first `i + 1` elements: that of the first `i`, then
      element `i`'s patterns, unless something failed on the way. */
  lemma WhereNext(build: ConditionBuilder, rep: QueryRepresentation, tree: seq<RootElement>, i: nat)
    requires i < |tree|
    ensures var before := WherePatterns(build, rep, tree[..i]);
            var ps := ElementPatterns(build, rep, tree[i], |Flatten(tree[..i])|);
            WherePatterns(build, rep, tree[..i + 1])
              == if before.Err? then Err(before.error)
                 else if ps.Err? then Err(ps.error)
                 else Ok(before.value + ps.value)
  {
    assert tree[..i + 1][..i] == tree[..i];
  }

  /** The step of the body for a single: its patterns, built with the index
      that counts the members before it, are appended. */
  lemma WhereNextSingle(build: ConditionBuilder, rep: QueryRepresentation, tree: seq<RootElement>, i: nat)
    requires i < |tree| && tree[i].Single? && WherePatterns(build, rep, tree[..i]).Ok?
    ensures var ps := ConditionPatterns(build, rep, tree[i].condition, |Flatten(tree[..i])|);
            WherePatterns(build, rep, tree[..i + 1])
              == if ps.Err? then Err(ps.error) else Ok(WherePatterns(build, rep, tree[..i]).value + ps.value)
  {
    WhereNext(build, rep, tree, i);
  }

  /** The step of the body for a group: one UNION of its arms is appended. */
  lemma WhereNextGroup(build: ConditionBuilder, rep: QueryRepresentation, tree: seq<RootElement>, i: nat)
    requires i < |tree| && tree[i].ConditionGroup? && WherePatterns(build, rep, tree[..i]).Ok?
    ensures var arms := UnionArms(build, rep, tree[i].members, |Flatten(tree[..i])|);
            WherePatterns(build, rep, tree[..i + 1])
              == if arms.Err? then Err(arms.error) else Ok(WherePatterns(build, rep, tree[..i]).value + [Union(arms.value)])
  {
    WhereNext(build, rep, tree, i);
  }

  /** Once a prefix of the tree fails, the whole body fails with that error:
      the first element that fails decides the outcome. */
  lemma WherePrefixFailure(build: ConditionBuilder, rep: QueryRepresentation, tree: seq<RootElement>, n: nat)
    requires n <= |tree| && WherePatterns(build, rep, tree[..n]).Err?
    ensures WherePatterns(build, rep, tree) == WherePatterns(build, rep, tree[..n])
  {
    var m := n;
    while m < |tree|
      invariant n <= m <= |tree|
      invariant WherePatterns(build, rep, tree[..m]) == WherePatterns(build, rep, tree[..n])
    {
      WhereNext(build, rep, tree, m);
      m := m + 1;
    }
    assert tree[..m] == tree;
  }

  /** The same for the arms of a union. */
  lemma ArmsPrefixFailure(build: ConditionBuilder, rep: QueryRepresentation, members: seq<Option<Condition>>, start: nat, n: nat)
    requires n <= |members| && UnionArms(build, rep, members[..n], start).Err?
    ensures UnionArms(build, rep, members, start) == UnionArms(build, rep, members[..n], start)
  {
    var m := n;
    while m < |members|
      invariant n <= m <= |members|
      invariant UnionArms(build, rep, members[..m], start) == UnionArms(build, rep, members[..n], start)
    {
      ArmsNext(build, rep, members, start, m);
      m := m + 1;
    }
    assert members[..m] == members;
  }

  lemma WhereStepOk(build: ConditionBuilder, rep: QueryRepresentation, tree: seq<RootElement>)
    requires tree != [] && WherePatterns(build, rep, tree).Ok?
    ensures var m := |tree| - 1;
            && WherePatterns(build, rep, tree[..m]).Ok?
            && ElementPatterns(build, rep, tree[m], |Flatten(tree[..m])|).Ok?
            && WherePatterns(build, rep, tree).value
               == WherePatterns(build, rep, tree[..m]).value + ElementPatterns(build, rep, tree[m], |Flatten(tree[..m])|).value
  {
  }

  /** Each element's patterns sit in the body right after those of the
      elements before it, built from the index that counts their members. */
  lemma {:induction false} WhereElementInOrder(build: ConditionBuilder, rep: QueryRepresentation, tree: seq<RootElement>, k: nat)
    requires k < |tree| && WherePatterns(build, rep, tree).Ok?
    ensures WherePatterns(build, rep, tree[..k]).Ok?
    ensures ElementPatterns(build, rep, tree[k], |Flatten(tree[..k])|).Ok?
    ensures WherePatterns(build, rep, tree[..k]).value + ElementPatterns(build, rep, tree[k], |Flatten(tree[..k])|).value
            <= WherePatterns(build, rep, tree).value
    decreases |tree|
  {
    var m := |tree| - 1;
    WhereStepOk(build, rep, tree);
    var whole := WherePatterns(build, rep, tree).value;
    var front := WherePatterns(build, rep, tree[..m]).value;
    assert front <= whole;
    if k < m {
      assert tree[..m][..k] == tree[..k] && tree[..m][k] == tree[k];
      WhereElementInOrder(build, rep, tree[..m], k);
      PrefixTransitive(WherePatterns(build, rep, tree[..k]).value + ElementPatterns(build, rep, tree[k], |Flatten(tree[..k])|).value, front, whole);
    }
  }

  lemma PrefixTransitive<T>(a: seq<T>, b: seq<T>, c: seq<T>)
    requires a <= b && b <= c
    ensures a <= c
  {
    assert forall i :: 0 <= i < |a| ==> a[i] == b[i] == c[i];
  }

  /** Every top-level element is a MINUS block (vacuously so for an empty body). */
  predicate OnlyMinus(where: seq<Pattern>)
  {
    forall k :: 0 <= k < |where| ==> where[k].Minus?
  }

  /** The body with an any-value pattern in front when it holds MINUS blocks
      only: afterwards it never does, and the original body is kept. */
  function WithAnyValue(where: seq<Pattern>): (r: seq<Pattern>)
    ensures |r| == |where| || |r| == |where| + 1
    ensures r[|r| - |where|..] == where
    ensures |r| == |where| + 1 <==> OnlyMinus(where)
    ensures |r| == |where| + 1 ==> r[0] == AnyValuePattern()
    ensures !OnlyMinus(r)
  {
    if OnlyMinus(where) then [AnyValuePattern()] + where else where
  }

  /** `if (limit)`: only a present, non-zero limit is applied. */
  function AppliedLimit(limit: Option<int>): (r: Option<int>)
    ensures r.Some? <==> limit.Some? && limit.value != 0
    ensures r.Some? ==> r == limit
  {
    if limit.Some? && limit.value != 0 then limit else None
  }

  /** The query before label wrapping. */
  function InnerQuery(where: seq<Pattern>, limit: Option<int>): SelectQuery
  {
    SelectQuery(true, [ItemVariable], WithAnyValue(where), AppliedLimit(limit), StandardPrefixes)
  }

  const ItemLabelVariable: Term := Variable("itemLabel")

  const LabelServiceName: Term := NamedNode(Prefixed(Wikibase, "label"))

  /** `wrapQueryWithLabel`: an outer query that selects the item and its
      label, asks the label service, and nests the query without prefixes. */
  function WrapWithLabel(inner: SelectQuery): SelectQuery
  {
    SelectQuery(
      true,
      [ItemVariable, ItemLabelVariable],
      [Service(LabelServiceName, [LabelServicePattern()], false), Group([SubQuery(inner.(prefixes := NoPrefixes))])],
      None,
      StandardPrefixes)
  }

  /** `buildFromQueryRepresentation` on a fresh builder. */
  function Compile(build: ConditionBuilder, rep: QueryRepresentation): Result<SelectQuery, BuildError>
  {
    var where :- WherePatterns(build, rep, Tree(rep.conditions));
    var inner := InnerQuery(where, rep.limit);
    if rep.omitLabels then Ok(inner) else Ok(WrapWithLabel(inner))
  }

  /** The query that carries the body: the result itself, or the one nested
      in the wrapper. */
  function BodyQuery(q: SelectQuery, omitLabels: bool): SelectQuery
  {
    if omitLabels || |q.where| < 2 || !q.where[1].Group? || |q.where[1].patterns| == 0
       || !q.where[1].patterns[0].SubQuery?
    then q
    else q.where[1].patterns[0].query
  }

  // ---------------------------------------------------------------------
  // Properties of the compiled query

  /** With labels left out the result is the inner query itself: DISTINCT,
      selecting `?item`, with the full prefix table and the body built from
      the tree. */
  lemma CompileWithoutLabels(build: ConditionBuilder, rep: QueryRepresentation)
    requires rep.omitLabels && Compile(build, rep).Ok?
    ensures var q := Compile(build, rep).value;
            q.distinct && q.variables == [ItemVariable] && q.prefixes == StandardPrefixes
            && WherePatterns(build, rep, Tree(rep.conditions)).Ok?
            && q.where == WithAnyValue(WherePatterns(build, rep, Tree(rep.conditions)).value)
  {
  }

  /** With labels the result is a DISTINCT outer query selecting `?item` and
      `?itemLabel`, whose body is the label service followed by a group
      holding the inner query built from the tree, prefixes emptied; the
      limit sits inside. */
  lemma CompileWithLabels(build: ConditionBuilder, rep: QueryRepresentation)
    requires !rep.omitLabels && Compile(build, rep).Ok?
    ensures var q := Compile(build, rep).value;
            q.distinct && q.variables == [ItemVariable, Variable("itemLabel")] && q.limit.None?
            && |q.where| == 2 && q.where[0].Service? && q.where[0].name == NamedNode(Prefixed(Wikibase, "label"))
            && q.where[0].patterns == [LabelServicePattern()] && !q.where[0].silent
            && q.where[1].Group? && |q.where[1].patterns| == 1 && q.where[1].patterns[0].SubQuery?
            && q.where[1].patterns[0].query.prefixes == NoPrefixes
            && q.where[1].patterns[0].query.variables == [ItemVariable]
    ensures WherePatterns(build, rep, Tree(rep.conditions)).Ok?
            && Compile(build, rep).value.where[1].patterns[0].query
               == InnerQuery(WherePatterns(build, rep, Tree(rep.conditions)).value, rep.limit).(prefixes := NoPrefixes)
  {
  }

  /** The limit reaches the query exactly when it is present and not zero. */
  lemma LimitOnlyWhenTruthy(build: ConditionBuilder, rep: QueryRepresentation)
    requires Compile(build, rep).Ok?
    ensures var body := BodyQuery(Compile(build, rep).value, rep.omitLabels);
            (body.limit.Some? <==> rep.limit.Some? && rep.limit.value != 0)
            && (body.limit.Some? ==> body.limit == rep.limit)
  {
  }

  /** The compiled body never consists of MINUS blocks only. */
  lemma BodyNeverOnlyMinus(build: ConditionBuilder, rep: QueryRepresentation)
    requires Compile(build, rep).Ok?
    ensures !OnlyMinus(BodyQuery(Compile(build, rep).value, rep.omitLabels).where)
  {
  }

  /** The hole of a group that starts with `or` is the group's first member,
      so the union fails on it before building anything. */
  lemma {:induction false} ArmsFailOnLeadingHole(build: ConditionBuilder, rep: QueryRepresentation, members: seq<Option<Condition>>, start: nat)
    requires |members| > 0 && members[0].None?
    ensures UnionArms(build, rep, members, start) == Err(UndefinedCondition)
    decreases |members|
  {
    if |members| > 1 {
      ArmsFailOnLeadingHole(build, rep, members[..|members| - 1], start);
    }
  }

  /** A query whose first condition is related by `or` does not compile. */
  lemma LeadingOrFails(build: ConditionBuilder, rep: QueryRepresentation)
    requires |rep.conditions| > 0 && IsOr(rep.conditions[0])
    ensures Compile(build, rep) == Err(UndefinedCondition)
  {
    var tree := Tree(rep.conditions);
    FlattenTree(rep.conditions);
    TreeEmpty(rep.conditions);
    TreeWellShaped(rep.conditions);
    FlattenPrefix(tree, 0);
    assert tree[..0] == [];
    assert Flatten(tree)[0] == None;
    assert tree[0].ConditionGroup? && tree[0].members[0] == None;
    ArmsFailOnLeadingHole(build, rep, tree[0].members, 0);
    assert tree[..1][..0] == [];
    WherePrefixFailure(build, rep, tree, 1);
  }

  /** A query with a single `and` (or first) condition splices that
      condition's patterns, built with index 0, into the body. */
  lemma SingleConditionSpliced(build: ConditionBuilder, rep: QueryRepresentation, c: Condition)
    requires rep.conditions == [c] && !IsOr(c)
    requires ConditionPatterns(build, rep, c, 0).Ok?
    ensures WherePatterns(build, rep, Tree(rep.conditions)) == ConditionPatterns(build, rep, c, 0)
  {
    assert Tree([c]) == [Single(c)];
    var t: seq<RootElement> := [Single(c)];
    assert t[..0] == [];
    var ps := ConditionPatterns(build, rep, c, 0).value;
    assert ElementPatterns(build, rep, t[0], |Flatten(t[..0])|) == Ok(ps);
    assert [] + ps == ps;
  }

  /** Two conditions related by `or` give one UNION of two groups, the
      second built with index 1. */
  lemma OrPairIsOneUnion(build: ConditionBuilder, rep: QueryRepresentation, c0: Condition, c1: Condition)
    requires rep.conditions == [c0, c1] && !IsOr(c0) && IsOr(c1)
    requires ConditionPatterns(build, rep, c0, 0).Ok? && ConditionPatterns(build, rep, c1, 1).Ok?
    ensures WherePatterns(build, rep, Tree(rep.conditions))
            == Ok([Union([Group(ConditionPatterns(build, rep, c0, 0).value), Group(ConditionPatterns(build, rep, c1, 1).value)])])
  {
    assert [c0, c1][..1] == [c0];
    assert Tree([c0]) == [Single(c0)];
    var members := [Some(c0), Some(c1)];
    assert Tree([c0, c1]) == [ConditionGroup(members)];
    var t: seq<RootElement> := [ConditionGroup(members)];
    assert t[..0] == [];
    var g0 := Group(ConditionPatterns(build, rep, c0, 0).value);
    var g1 := Group(ConditionPatterns(build, rep, c1, 1).value);
    assert members[..0] == [] && members[..2] == members;
    ArmsNext(build, rep, members, 0, 0);
    assert [] + [g0] == [g0];
    assert UnionArms(build, rep, members[..1], 0) == Ok([g0]);
    ArmsNext(build, rep, members, 0, 1);
    var expected := [g0, g1];
    assert [g0] + [g1] == expected;
    assert UnionArms(build, rep, members, 0) == Ok(expected);
    assert ElementPatterns(build, rep, t[0], |Flatten(t[..0])|) == Ok([Union(expected)]);
    assert [] + [Union(expected)] == [Union(expected)];
  }

  // ---------------------------------------------------------------------
  // The builder object

  /** `isOnlyNegateQuery`: scans the body until a pattern that is not MINUS. */
  method OnlyNegateQuery(where: seq<Pattern>) returns (isOnlyNegateQuery: bool)
    ensures isOnlyNegateQuery <==> OnlyMinus(where)
  {
    isOnlyNegateQuery := true;
    var i := 0;
    while i < |where|
      invariant 0 <= i <= |where|
      invariant isOnlyNegateQuery && forall k :: 0 <= k < i ==> where[k].Minus?
    {
      if !where[i].Minus? {
        assert !OnlyMinus(where);
        isOnlyNegateQuery := false;
        break;
      }
      i := i + 1;
    }
  }

  class QueryObjectBuilder {
    var queryObject: SelectQuery
    var conditionIndex: nat
    const queryRepresentation: QueryRepresentation
    const conditions: seq<RootElement>
    const patternBuilder: ConditionBuilder

    /** The state of a builder that has not compiled yet. */
    predicate Fresh()
      reads this
    {
      queryObject == SelectQuery(true, [], [], None, StandardPrefixes)
      && conditionIndex == 0 && conditions == Tree(queryRepresentation.conditions)
    }

    constructor(ctx: BuildContext, queryRepresentation: QueryRepresentation)
      ensures patternBuilder == Dispatch(ctx) && this.queryRepresentation == queryRepresentation
      ensures Fresh()
    {
      this.queryObject := SelectQuery(true, [], [], None, StandardPrefixes);
      this.conditionIndex := 0;
      this.patternBuilder := Dispatch(ctx);
      this.queryRepresentation := queryRepresentation;
      var tree := BuildConditionTree(queryRepresentation.conditions);
      this.conditions := tree;
    }

    /** `buildFromQueryCondition`: takes the next index and appends the
      condition's patterns to the body. */
    method BuildFromQueryCondition(c: Condition) returns (failure: Option<BuildError>)
      modifies this
      ensures conditionIndex == old(conditionIndex) + 1
      ensures var r := ConditionPatterns(patternBuilder, queryRepresentation, c, old(conditionIndex));
              && (r.Ok? ==> failure.None? && queryObject == old(queryObject).(where := old(queryObject.where) + r.value))
              && (r.Err? ==> failure == Some(r.error) && queryObject == old(queryObject))
    {
      var index := conditionIndex;
      conditionIndex := conditionIndex + 1;
      var suffix := RepeatSuffix(queryRepresentation.conditions, c.propertyId, index);
      var r := patternBuilder(c, index, suffix);
      if r.Err? {
        return Some(r.error);
      }
      queryObject := queryObject.(where := queryObject.where + r.value);
      failure := None;
    }

    /** `buildUnion`: one index per member, one group per member, then one
      UNION node appended to the body. */
    method BuildUnion(members: seq<Option<Condition>>) returns (failure: Option<BuildError>)
      modifies this
      ensures var r := UnionArms(patternBuilder, queryRepresentation, members, old(conditionIndex));
              && (r.Ok? ==> failure.None? && conditionIndex == old(conditionIndex) + |members|
                            && queryObject == old(queryObject).(where := old(queryObject.where) + [Union(r.value)]))
              && (r.Err? ==> failure == Some(r.error) && queryObject == old(queryObject))
    {
      var start := conditionIndex;
      var unionConditions: seq<Pattern> := [];
      var i := 0;
      assert members[..0] == [];
      while i < |members|
        invariant 0 <= i <= |members|
        invariant conditionIndex == start + i
        invariant queryObject == old(queryObject)
        invariant UnionArms(patternBuilder, queryRepresentation, members[..i], start) == Ok(unionConditions)
      {
        var index := conditionIndex;
        conditionIndex := conditionIndex + 1;
        if members[i].None? {
          ArmsStopAt(patternBuilder, queryRepresentation, members, start, i);
          return Some(UndefinedCondition);
        }
        var c := members[i].value;
        var suffix := RepeatSuffix(queryRepresentation.conditions, c.propertyId, index);
        var r := patternBuilder(c, index, suffix);
        assert r == ConditionPatterns(patternBuilder, queryRepresentation, c, start + i);
        if r.Err? {
          ArmsStopAt(patternBuilder, queryRepresentation, members, start, i);
          return Some(r.error);
        }
        ArmsExtend(patternBuilder, queryRepresentation, members, start, i, unionConditions);
        unionConditions := unionConditions + [Group(r.value)];
        i := i + 1;
      }
      assert members[..i] == members;
      queryObject := queryObject.(where := queryObject.where + [Union(unionConditions)]);
      failure := None;
    }

    /** `wrapQueryWithLabel`: empties the prefixes of the query built so far
      and returns it nested in the label-service wrapper. */
    method WrapQueryWithLabel() returns (wrapper: SelectQuery)
      modifies this
      ensures queryObject == old(queryObject).(prefixes := NoPrefixes)
      ensures wrapper == WrapWithLabel(old(queryObject))
      ensures conditionIndex == old(conditionIndex)
    {
      queryObject := queryObject.(prefixes := NoPrefixes);
      wrapper := SelectQuery(
        true,
        [ItemVariable, ItemLabelVariable],
        [Service(LabelServiceName, [LabelServicePattern()], false), Group([SubQuery(queryObject)])],
        None,
        StandardPrefixes);
    }

    /** The `forEach` callback for element `i` of the tree: a group is built
      as one union, a single in place. */
    method BuildFromRootElement(i: nat) returns (failure: Option<BuildError>)
      requires i < |conditions| && conditionIndex == |Flatten(conditions[..i])|
      requires WherePatterns(patternBuilder, queryRepresentation, conditions[..i]) == Ok(queryObject.where)
      modifies this
      ensures var w := WherePatterns(patternBuilder, queryRepresentation, conditions[..i + 1]);
              && (w.Err? ==> failure == Some(w.error))
              && (w.Ok? ==> failure.None? && queryObject == old(queryObject).(where := w.value)
                            && conditionIndex == |Flatten(conditions[..i + 1])|)
    {
      var e := conditions[i];
      FlattenSnoc(conditions[..i], e);
      assert conditions[..i + 1] == conditions[..i] + [e];
      if e.ConditionGroup? {
        WhereNextGroup(patternBuilder, queryRepresentation, conditions, i);
        failure := BuildUnion(e.members);
      } else {
        WhereNextSingle(patternBuilder, queryRepresentation, conditions, i);
        failure := BuildFromQueryCondition(e.condition);
      }
    }

    /** The `forEach` over the tree; the first failure stops the walk. */
    method BuildWhere() returns (failure: Option<BuildError>)
      requires queryObject == SelectQuery(true, [ItemVariable], [], None, StandardPrefixes) && conditionIndex == 0
      modifies this
      ensures var w := WherePatterns(patternBuilder, queryRepresentation, conditions);
              && (w.Err? ==> failure == Some(w.error))
              && (w.Ok? ==> failure.None? && queryObject == SelectQuery(true, [ItemVariable], w.value, None, StandardPrefixes))
    {
      var i := 0;
      assert conditions[..0] == [];
      while i < |conditions|
        invariant 0 <= i <= |conditions|
        invariant conditionIndex == |Flatten(conditions[..i])|
        invariant WherePatterns(patternBuilder, queryRepresentation, conditions[..i]) == Ok(queryObject.where)
        invariant queryObject == SelectQuery(true, [ItemVariable], queryObject.where, None, StandardPrefixes)
      {
        failure := BuildFromRootElement(i);
        if failure.Some? {
          WherePrefixFailure(patternBuilder, queryRepresentation, conditions, i + 1);
          return;
        }
        i := i + 1;
      }
      assert conditions[..i] == conditions;
      failure := None;
    }

    /** `buildFromQueryRepresentation`: the compiled query, or the error the
      first failing condition raises. */
    method BuildFromQueryRepresentation() returns (r: Result<SelectQuery, BuildError>)
      requires Fresh()
      modifies this
      ensures r == Compile(patternBuilder, queryRepresentation)
    {
      queryObject := queryObject.(variables := [ItemVariable]);
      var failure := BuildWhere();
      if failure.Some? {
        return Err(failure.value);
      }
      ghost var where := queryObject.where;
      var isOnlyNegateQuery := OnlyNegateQuery(queryObject.where);
      if isOnlyNegateQuery {
        queryObject := queryObject.(where := [AnyValuePattern()] + queryObject.where);
      }
      assert queryObject.where == WithAnyValue(where);
      if queryRepresentation.limit.Some? && queryRepresentation.limit.value != 0 {
        queryObject := queryObject.(limit := queryRepresentation.limit);
      }
      assert queryObject == InnerQuery(where, queryRepresentation.limit);
      if !queryRepresentation.omitLabels {
        var wrapper := WrapQueryWithLabel();
        return Ok(wrapper);
      }
      return Ok(queryObject);
    }
  }
}
