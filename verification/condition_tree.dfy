/** The grouping of a query's flat condition list into top-level singles and
    OR-groups (`buildConditionTree` and its helpers). A condition related to
    the one above it by `or` joins that one's group; any other condition
    starts a new top-level element. */
module ConditionTree {
  import opened Common
  import opened DataModel

  /** A top-level element: one condition, or the members of an OR-group.
      A member is `None` where the source pops from an empty list and keeps
      JavaScript's `undefined`, which happens only when the very first
      condition is related by `or`. */
  datatype RootElement =
    | Single(condition: Condition)
    | ConditionGroup(members: seq<Option<Condition>>)

  predicate IsOr(c: Condition) { c.conditionRelation == Some(Or) }

  /** One step of the grouping: `attachToRootWithAnd` for `and` and `null`,
      `attachToPreviousConditionWithOr` for `or`. */
  function Attach(root: seq<RootElement>, c: Condition): (r: seq<RootElement>)
    ensures |r| > 0
  {
    if !IsOr(c) then root + [Single(c)]
    else if |root| == 0 then [ConditionGroup([None, Some(c)])]
    else if root[|root| - 1].Single? then root[..|root| - 1] + [ConditionGroup([Some(root[|root| - 1].condition), Some(c)])]
    else root[..|root| - 1] + [ConditionGroup(root[|root| - 1].members + [Some(c)])]
  }

  /** The tree of a condition list, built one condition at a time. */
  function Tree(conditions: seq<Condition>): seq<RootElement>
  {
    if conditions == [] then [] else Attach(Tree(conditions[..|conditions| - 1]), conditions[|conditions| - 1])
  }

  /** The members of one element, in order. */
  function Members(e: RootElement): seq<Option<Condition>>
  {
    match e
    case Single(c) => [Some(c)]
    case ConditionGroup(ms) => ms
  }

  /** Singles, then group members, in order. */
  function Flatten(tree: seq<RootElement>): seq<Option<Condition>>
  {
    if tree == [] then [] else Flatten(tree[..|tree| - 1]) + Members(tree[|tree| - 1])
  }

  function Somes(conditions: seq<Condition>): (r: seq<Option<Condition>>)
    ensures |r| == |conditions| && forall k :: 0 <= k < |r| ==> r[k] == Some(conditions[k])
  {
    seq(|conditions|, k requires 0 <= k < |conditions| => Some(conditions[k]))
  }

  /** The `undefined` hole in front of the list when the first condition is
      related by `or`. */
  function Lead(conditions: seq<Condition>): seq<Option<Condition>>
  {
    if |conditions| > 0 && IsOr(conditions[0]) then [None] else []
  }

  lemma FlattenSnoc(a: seq<RootElement>, e: RootElement)
    ensures Flatten(a + [e]) == Flatten(a) + Members(e)
  {
    assert (a + [e])[..|a|] == a;
  }

  lemma FlattenAttachAnd(root: seq<RootElement>, c: Condition)
    requires !IsOr(c)
    ensures Flatten(Attach(root, c)) == Flatten(root) + [Some(c)]
  {
    FlattenSnoc(root, Single(c));
  }

  /** Replacing the last element by `e` swaps its members for those of `e`. */
  lemma FlattenReplaceLast(root: seq<RootElement>, e: RootElement)
    requires |root| > 0
    ensures Flatten(root[..|root| - 1] + [e]) == Flatten(root[..|root| - 1]) + Members(e)
    ensures Flatten(root) == Flatten(root[..|root| - 1]) + Members(root[|root| - 1])
  {
    FlattenSnoc(root[..|root| - 1], e);
  }

  lemma FlattenAttachOr(root: seq<RootElement>, c: Condition)
    requires IsOr(c) && |root| > 0
    ensures Flatten(Attach(root, c)) == Flatten(root) + [Some(c)]
  {
    var last := root[|root| - 1];
    var g := ConditionGroup(Members(last) + [Some(c)]);
    if last.Single? {
      assert Members(last) + [Some(c)] == [Some(last.condition), Some(c)];
    }
    assert Attach(root, c) == root[..|root| - 1] + [g];
    FlattenReplaceLast(root, g);
  }

  lemma FlattenAttachFirstOr(c: Condition)
    requires IsOr(c)
    ensures Flatten(Attach([], c)) == [None, Some(c)]
  {
    FlattenSnoc([], ConditionGroup([None, Some(c)]));
    assert [] + [ConditionGroup([None, Some(c)])] == Attach([], c);
  }

  lemma {:induction false} TreeEmpty(conditions: seq<Condition>)
    ensures |Tree(conditions)| == 0 <==> |conditions| == 0
  {
  }

  lemma TreeSnoc(init: seq<Condition>, c: Condition)
    ensures Tree(init + [c]) == Attach(Tree(init), c)
  {
    assert (init + [c])[..|init|] == init;
  }

  lemma SomesSnoc(init: seq<Condition>, c: Condition)
    ensures Somes(init + [c]) == Somes(init) + [Some(c)]
  {
  }

  /** Attaching one more condition adds exactly that condition to the
      flattened list, after the hole when it is the first condition and `or`. */
  lemma FlattenAttach(root: seq<RootElement>, c: Condition)
    ensures root == [] ==> Flatten(Attach(root, c)) == (if IsOr(c) then [None] else []) + [Some(c)]
    ensures root != [] ==> Flatten(Attach(root, c)) == Flatten(root) + [Some(c)]
  {
    if !IsOr(c) {
      FlattenAttachAnd(root, c);
    } else if root != [] {
      FlattenAttachOr(root, c);
    } else {
      FlattenAttachFirstOr(c);
    }
  }

  /** Flattening the tree gives back the condition list exactly, preceded by
      the hole when the first condition is related by `or`. */
  lemma {:induction false} FlattenTree(conditions: seq<Condition>)
    ensures Flatten(Tree(conditions)) == Lead(conditions) + Somes(conditions)
    decreases |conditions|
  {
    if conditions != [] {
      var init := conditions[..|conditions| - 1];
      var c := conditions[|conditions| - 1];
      assert conditions == init + [c];
      FlattenTree(init);
      TreeEmpty(init);
      TreeSnoc(init, c);
      SomesSnoc(init, c);
      FlattenAttach(Tree(init), c);
      if init != [] {
        assert conditions[0] == init[0];
      }
    }
  }

  /** A hole appears exactly when the first condition is related by `or`. */
  lemma HoleOnlyForLeadingOr(conditions: seq<Condition>)
    ensures None in Flatten(Tree(conditions)) <==> |conditions| > 0 && IsOr(conditions[0])
  {
    FlattenTree(conditions);
    assert forall k :: 0 <= k < |Somes(conditions)| ==> Somes(conditions)[k] != None;
  }

  /** The shape every element has: a single is never an `or` condition; a
      group has at least two members, the first of them not `or` (or the
      hole) and all later ones `or` conditions. */
  predicate WellShaped(e: RootElement)
  {
    match e
    case Single(c) => !IsOr(c)
    case ConditionGroup(ms) =>
      |ms| >= 2 && (ms[0].None? || !IsOr(ms[0].value))
      && forall j :: 1 <= j < |ms| ==> ms[j].Some? && IsOr(ms[j].value)
  }

  predicate AllWellShaped(tree: seq<RootElement>)
  {
    forall k :: 0 <= k < |tree| ==> WellShaped(tree[k])
  }

  lemma AttachKeepsShape(root: seq<RootElement>, c: Condition)
    requires AllWellShaped(root)
    ensures AllWellShaped(Attach(root, c))
  {
    var r := Attach(root, c);
    if IsOr(c) && |root| > 0 {
      assert forall k :: 0 <= k < |root| - 1 ==> r[k] == root[k];
      var last := root[|root| - 1];
      assert WellShaped(last);
      if last.ConditionGroup? {
        var ms := last.members + [Some(c)];
        assert r[|root| - 1] == ConditionGroup(ms);
        assert forall j :: 1 <= j < |ms| - 1 ==> ms[j] == last.members[j];
      }
    } else if !IsOr(c) {
      assert forall k :: 0 <= k < |root| ==> r[k] == root[k];
    }
  }

  /** Every element of a tree has the grouped shape. */
  lemma {:induction false} TreeWellShaped(conditions: seq<Condition>)
    ensures AllWellShaped(Tree(conditions))
    decreases |conditions|
  {
    if conditions != [] {
      TreeWellShaped(conditions[..|conditions| - 1]);
      AttachKeepsShape(Tree(conditions[..|conditions| - 1]), conditions[|conditions| - 1]);
    }
  }

  /** Relations `[null, or, null, or]` give two groups of two. */
  lemma TwoOrGroupsExample(c0: Condition, c1: Condition, c2: Condition, c3: Condition)
    requires c0.conditionRelation.None? && c1.conditionRelation == Some(Or)
    requires c2.conditionRelation.None? && c3.conditionRelation == Some(Or)
    ensures Tree([c0, c1, c2, c3]) == [ConditionGroup([Some(c0), Some(c1)]), ConditionGroup([Some(c2), Some(c3)])]
  {
    var cs := [c0, c1, c2, c3];
    assert cs[..3] == [c0, c1, c2] && [c0, c1, c2][..2] == [c0, c1] && [c0, c1][..1] == [c0] && [c0][..0] == [];
    assert Tree([c0]) == [Single(c0)];
    assert Tree([c0, c1]) == [ConditionGroup([Some(c0), Some(c1)])];
    assert Tree([c0, c1, c2]) == [ConditionGroup([Some(c0), Some(c1)]), Single(c2)];
  }

  /** A shorter prefix of the tree flattens to a prefix of a longer one. */
  lemma {:induction false} FlattenPrefixes(t: seq<RootElement>, j: nat, m: nat)
    requires j <= m <= |t|
    ensures Flatten(t[..j]) <= Flatten(t[..m])
    decreases m - j
  {
    if j < m {
      FlattenPrefixes(t, j, m - 1);
      assert t[..m][..m - 1] == t[..m - 1];
    }
  }

  /** In the flattened list, the members of element `k` follow those of
      the elements before it. */
  lemma FlattenPrefix(t: seq<RootElement>, k: nat)
    requires k < |t|
    ensures Flatten(t[..k]) + Members(t[k]) <= Flatten(t)
  {
    FlattenPrefixes(t, k + 1, |t|);
    assert t[..k + 1][..k] == t[..k];
    assert t[..|t|] == t;
  }

  /** Element `k` holds the conditions that come right after those of the
      elements before it in declaration order (after the hole, if any): the
      running condition index of the compiler, which counts the members of
      the earlier elements, is each member's position in the condition list. */
  lemma ElementMembersInOrder(conditions: seq<Condition>, k: nat)
    requires k < |Tree(conditions)|
    ensures Flatten(Tree(conditions)[..k]) + Members(Tree(conditions)[k]) <= Lead(conditions) + Somes(conditions)
  {
    FlattenTree(conditions);
    FlattenPrefix(Tree(conditions), k);
  }

  /** `attachToPreviousConditionWithOr`: a last single is popped and pushed
      back as a group (`makeLastElementIntoConditionGroup`), then the
      condition is pushed onto the last group
      (`attachToExistingConditionGroup`). On an empty root the pop yields
      `undefined`, which becomes the group's first member. */
  method AttachWithOr(root: seq<RootElement>, c: Condition) returns (r: seq<RootElement>)
    requires IsOr(c)
    ensures r == Attach(root, c)
  {
    r := root;
    var n := |r|;
    if n == 0 {
      r := [ConditionGroup([None])];
    } else if r[n - 1].Single? {
      var last := r[n - 1].condition;
      r := r[..n - 1] + [ConditionGroup([Some(last)])];
    }
    ghost var grouped := r;
    n := |r|;
    r := r[..n - 1] + [ConditionGroup(r[n - 1].members + [Some(c)])];
    if |root| == 0 {
      assert grouped[0].members + [Some(c)] == [None, Some(c)];
    } else {
      assert grouped[..n - 1] == root[..|root| - 1];
      if root[|root| - 1].Single? {
        assert grouped[n - 1].members + [Some(c)] == [Some(root[|root| - 1].condition), Some(c)];
      }
    }
  }

  /** `buildConditionTree`: `and` and unrelated conditions are pushed onto
      the root (`attachToRootWithAnd`), `or` conditions join the last group. */
  method BuildConditionTree(conditions: seq<Condition>) returns (root: seq<RootElement>)
    ensures root == Tree(conditions)
  {
    root := [];
    var i := 0;
    while i < |conditions|
      invariant 0 <= i <= |conditions|
      invariant root == Tree(conditions[..i])
    {
      var c := conditions[i];
      assert conditions[..i + 1][..i] == conditions[..i];
      if c.conditionRelation == Some(And) || c.conditionRelation.None? {
        root := root + [Single(c)];
      } else {
        assert c.conditionRelation.value != And;
        root := AttachWithOr(root, c);
      }
      i := i + 1;
    }
    assert conditions[..i] == conditions;
  }
}
