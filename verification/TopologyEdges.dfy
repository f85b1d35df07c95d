// The edges of the expected topology, told without the functions that build them:
// one edge between each source and each target of an action, named after the
// action's type and carrying the members the two share.
module TopologyEdges {
  import opened Common
  import opened Ordering
  import opened Members
  import opened Topology
  import opened TopologyNormal
  import opened TopologyExpected

  // The canonical list of what two member lists share.
  ghost predicate Shared(c: seq<string>, a: seq<string>, b: seq<string>) {
    IsCanonical(c) && forall x :: x in c <==> x in a && x in b
  }

  predicate RoleFits(role: Role, actionType: string) {
    && (role == Pair <==> actionType == "EXCHANGE_DATE")
    && (role == SplitSuccessor <==> actionType == "SPLIT")
    && (role == MergeSource <==> actionType == "MERGE")
  }

  // The edge runs from this source to this target, whose members are `held`.
  ghost predicate Joins(edge: Edge, actionType: string, s: Source, t: Target, held: seq<string>) {
    && edge.sourceLabel == s.labelId && edge.sourceInstruction == s.instructionId && edge.targetInstruction == t.instructionId
    && RoleFits(edge.role, actionType)
    && Shared(edge.hash.members, s.members, held) && edge.count == |edge.hash.members|
  }

  // ------------------------------------------------------------ one action

  ghost predicate JoinsSome(edge: Edge, actionType: string, ss: seq<Source>, ts: seq<Target>, plans: seq<TargetPlan>) {
    |plans| == |ts| && exists s, t :: 0 <= s < |ss| && 0 <= t < |ts| && Joins(edge, actionType, ss[s], ts[t], plans[t].members)
  }

  ghost predicate Joined(edges: seq<Edge>, actionType: string, s: Source, t: Target, held: seq<string>) {
    exists j :: 0 <= j < |edges| && Joins(edges[j], actionType, s, t, held)
  }

  // Every edge joins a source and a target, and every two are joined.
  ghost predicate JoinsAll(actionType: string, ss: seq<Source>, ts: seq<Target>, p: Part) {
    && |p.plans| == |ts|
    && (forall j | 0 <= j < |p.edges| :: JoinsSome(p.edges[j], actionType, ss, ts, p.plans))
    && (forall s, t | 0 <= s < |ss| && 0 <= t < |ts| :: Joined(p.edges, actionType, ss[s], ts[t], p.plans[t].members))
  }

  lemma EdgeJoins(s: Source, t: Target, role: Role, members: seq<string>, actionType: string, held: seq<string>)
    requires RoleFits(role, actionType) && Shared(members, s.members, held)
    ensures Joins(EdgeOf(s, t, role, members), actionType, s, t, held)
  {
  }

  lemma ExchangeJoins(a: Action)
    requires UnionShape(a) && KindShape(a) && a.actionType == "EXCHANGE_DATE"
    ensures ActionPart(a).Some? && JoinsAll(a.actionType, a.sources, a.targets, ActionPart(a).value)
  {
    CanonicalIsFixed(a.sources[0].members);
    var p := ActionPart(a).value;
    EdgeJoins(a.sources[0], a.targets[0], Pair, a.sources[0].members, a.actionType, a.sources[0].members);
    assert Joins(p.edges[0], a.actionType, a.sources[0], a.targets[0], p.plans[0].members);
  }

  // Parts that add up to the source's members lie within them.
  lemma PartWithin(parts: seq<seq<string>>, whole: seq<string>, i: nat)
    requires i < |parts| && multiset(Flatten(parts)) == multiset(whole) && IsCanonical(parts[i])
    ensures Shared(parts[i], whole, parts[i])
  {
    FlattenContains(parts, i);
    forall x | x in parts[i]
      ensures x in whole
    {
      assert x in multiset(parts[i]);
      assert x in multiset(whole);
    }
  }

  // The successors of one source, when the parts add up to its members.
  lemma {:induction false} PartsJoin(s: Source, ts: seq<Target>, parts: seq<seq<string>>)
    requires |parts| == |ts| && Distinct(Instructions(ts)) && multiset(Flatten(parts)) == multiset(s.members)
    requires forall i | 0 <= i < |parts| :: IsCanonical(parts[i])
    ensures SplitPlans(s, ts, NormalSplit(ts, parts)).Some?
    ensures JoinsAll("SPLIT", [s], ts, SplitPlans(s, ts, NormalSplit(ts, parts)).value)
  {
    NormalSplitLookup(ts, parts);
    SplitPlansFollow(s, ts, NormalSplit(ts, parts), parts);
    var p := SplitPlans(s, ts, NormalSplit(ts, parts)).value;
    forall i | 0 <= i < |ts|
      ensures Joins(p.edges[i], "SPLIT", [s][0], ts[i], p.plans[i].members)
    {
      PartWithin(parts, s.members, i);
      EdgeJoins(s, ts[i], SplitSuccessor, parts[i], "SPLIT", parts[i]);
    }
  }

  lemma OneSource(ss: seq<Source>)
    requires |ss| == 1
    ensures ss == [ss[0]] && Flatten(MembersOf(ss)) == ss[0].members
  {
    assert MembersOf(ss) == [ss[0].members];
    FlattenOne(ss[0].members);
  }

  lemma SplitJoins(a: Action)
    requires UnionShape(a) && KindShape(a) && a.actionType == "SPLIT"
    ensures ActionPart(a).Some? && JoinsAll(a.actionType, a.sources, a.targets, ActionPart(a).value)
  {
    SplitShape(a);
    var parts := SplitParts(a.split.value, a.targets).value;
    SplitIsPartition(parts, a.memberIds);
    OneSource(a.sources);
    PartsJoin(a.sources[0], a.targets, parts);
    assert ActionPart(a) == SplitPlans(a.sources[0], a.targets, NormalSplit(a.targets, parts));
  }

  lemma SourceWithin(ss: seq<Source>, union: seq<string>, i: nat)
    requires i < |ss| && multiset(Flatten(MembersOf(ss))) == multiset(union) && IsCanonical(ss[i].members)
    ensures Shared(ss[i].members, ss[i].members, union)
  {
    PartWithin(MembersOf(ss), union, i);
  }

  lemma MergeJoins(a: Action)
    requires UnionShape(a) && KindShape(a) && a.actionType == "MERGE"
    ensures ActionPart(a).Some? && JoinsAll(a.actionType, a.sources, a.targets, ActionPart(a).value)
  {
    MergeEdgesFollow(a.sources, a.targets[0]);
    var p := ActionPart(a).value;
    assert p.plans[0].members == a.memberIds;
    forall i | 0 <= i < |a.sources|
      ensures Joins(p.edges[i], a.actionType, a.sources[i], a.targets[0], p.plans[0].members)
    {
      SourceWithin(a.sources, a.memberIds, i);
      EdgeJoins(a.sources[i], a.targets[0], MergeSource, a.sources[i].members, a.actionType, a.memberIds);
    }
  }

  lemma ActionJoins(a: Action)
    requires UnionShape(a) && KindShape(a)
    ensures ActionPart(a).Some? && JoinsAll(a.actionType, a.sources, a.targets, ActionPart(a).value)
  {
    match KindOf(a.actionType)
    case ExchangeDate => ExchangeJoins(a);
    case SplitLabel => SplitJoins(a);
    case MergeLabels => MergeJoins(a);
  }

  ghost predicate HeldBySome(ss: seq<Source>, x: string) {
    exists s :: 0 <= s < |ss| && x in ss[s].members
  }

  // What a target of an action receives: its own part of a split, everything otherwise.
  ghost predicate Receives(a: Action, t: Target, held: seq<string>) {
    && IsCanonical(held)
    && (a.actionType == "SPLIT" ==> a.split.Some? && t.instructionId in a.split.value && held == a.split.value[t.instructionId])
    && (a.actionType != "SPLIT" ==> forall x :: x in held <==> HeldBySome(a.sources, x))
  }

  lemma SplitReceives(a: Action, t: nat)
    requires UnionShape(a) && KindShape(a) && a.actionType == "SPLIT" && t < |a.targets|
    ensures ActionPart(a).Some? && |ActionPart(a).value.plans| == |a.targets|
    ensures Receives(a, a.targets[t], ActionPart(a).value.plans[t].members)
  {
    var parts := SplitParts(a.split.value, a.targets).value;
    SplitShape(a);
    NormalSplitLookup(a.targets, parts);
    SplitPlansFollow(a.sources[0], a.targets, a.split.value, parts);
  }

  lemma WholeReceives(a: Action, t: nat)
    requires UnionShape(a) && KindShape(a) && a.actionType != "SPLIT" && t < |a.targets|
    ensures ActionPart(a).Some? && |ActionPart(a).value.plans| == |a.targets|
    ensures Receives(a, a.targets[t], ActionPart(a).value.plans[t].members)
  {
    if a.actionType == "MERGE" {
      MergeEdgesFollow(a.sources, a.targets[0]);
      MergedMembers(a);
    } else {
      CanonicalIsFixed(a.sources[0].members);
    }
  }

  lemma ActionReceives(a: Action, t: nat)
    requires UnionShape(a) && KindShape(a) && t < |a.targets|
    ensures ActionPart(a).Some? && |ActionPart(a).value.plans| == |a.targets|
    ensures Receives(a, a.targets[t], ActionPart(a).value.plans[t].members)
  {
    if a.actionType == "SPLIT" {
      SplitReceives(a, t);
    } else {
      WholeReceives(a, t);
    }
  }

  lemma MergedMembers(a: Action)
    requires UnionShape(a)
    ensures forall x :: x in a.memberIds <==> HeldBySome(a.sources, x)
  {
    forall x
      ensures x in a.memberIds <==> HeldBySome(a.sources, x)
    {
      FlattenMembers(MembersOf(a.sources), x);
      assert x in a.memberIds <==> x in multiset(Flatten(MembersOf(a.sources)));
    }
  }

  // ------------------------------------------------------------ all actions

  lemma {:induction false} EdgeComesFrom(actions: seq<Action>, edge: Edge)
    requires PartOf(actions).Some?
    ensures edge in PartOf(actions).value.edges <==>
            exists i :: 0 <= i < |actions| && ActionPart(actions[i]).Some? && edge in ActionPart(actions[i]).value.edges
  {
    if actions != [] {
      var n := |actions| - 1;
      EdgeComesFrom(actions[..n], edge);
      assert forall i | 0 <= i < n :: actions[..n][i] == actions[i];
      if edge in PartOf(actions[..n]).value.edges {
        var i :| 0 <= i < n && ActionPart(actions[..n][i]).Some? && edge in ActionPart(actions[..n][i]).value.edges;
        assert edge in ActionPart(actions[i]).value.edges;
      }
      if i :| 0 <= i < n && ActionPart(actions[i]).Some? && edge in ActionPart(actions[i]).value.edges {
        assert edge in ActionPart(actions[..n][i]).value.edges;
      }
    }
  }

  lemma {:induction false} PlanIsAmong(actions: seq<Action>, i: nat, t: nat)
    requires PartOf(actions).Some? && i < |actions| && ActionPart(actions[i]).Some? && t < |ActionPart(actions[i]).value.plans|
    ensures ActionPart(actions[i]).value.plans[t] in PartOf(actions).value.plans
  {
    var n := |actions| - 1;
    if i < n {
      PlanIsAmong(actions[..n], i, t);
    }
  }

  // The plan of a target is the one the topology keeps under its instruction.
  lemma PlanIsKept(actions: seq<Action>, i: nat, t: nat)
    requires AllConserve(actions) && Distinct(TargetInstructions(actions)) && ExpectedTopology(actions).Some?
    requires i < |actions| && t < |actions[i].targets|
    ensures ActionPart(actions[i]).Some? && t < |ActionPart(actions[i]).value.plans|
    ensures var plan, e := ActionPart(actions[i]).value.plans[t], ExpectedTopology(actions).value;
            actions[i].targets[t].instructionId in e.targets && e.targets[actions[i].targets[t].instructionId] == plan
  {
    assert ActionPart(actions[i]).Some? && PartConserves(actions[i], ActionPart(actions[i]).value);
    var plans := PartOf(actions).value.plans;
    PlanIsAmong(actions, i, t);
    PlansFollowTargets(actions);
    AddPlansLookup(plans);
    var m :| 0 <= m < |plans| && plans[m] == ActionPart(actions[i]).value.plans[t];
  }

  // An action's edge and target as the expected topology `e` shows them.
  ghost predicate Explains(a: Action, e: Expected, edge: Edge, s: nat, t: nat) {
    && s < |a.sources| && t < |a.targets| && a.targets[t].instructionId in e.targets
    && Joins(edge, a.actionType, a.sources[s], a.targets[t], e.targets[a.targets[t].instructionId].members)
  }

  ghost predicate ExplainedBy(a: Action, e: Expected, edge: Edge) {
    exists s: nat, t: nat :: Explains(a, e, edge, s, t)
  }

  ghost predicate Explained(actions: seq<Action>, e: Expected, edge: Edge) {
    exists i :: 0 <= i < |actions| && ExplainedBy(actions[i], e, edge)
  }

  ghost predicate HasEdge(a: Action, e: Expected, s: nat, t: nat) {
    exists j :: 0 <= j < |e.edges| && Explains(a, e, e.edges[j], s, t)
  }

  // The topology keeps this action's plans and edges.
  ghost predicate Keeps(a: Action, p: Part, e: Expected) {
    && |p.plans| == |a.targets|
    && (forall t | 0 <= t < |a.targets| ::
          a.targets[t].instructionId in e.targets && e.targets[a.targets[t].instructionId].members == p.plans[t].members)
    && (forall j | 0 <= j < |p.edges| :: p.edges[j] in e.edges)
  }

  // What the topology says of one action.
  ghost predicate Shows(a: Action, e: Expected) {
    && (forall s: nat, t: nat | s < |a.sources| && t < |a.targets| :: HasEdge(a, e, s, t))
    && (forall t | 0 <= t < |a.targets| ::
          a.targets[t].instructionId in e.targets && Receives(a, a.targets[t], e.targets[a.targets[t].instructionId].members))
  }

  lemma KeptEdgeExplained(a: Action, p: Part, e: Expected, j: nat)
    requires Keeps(a, p, e) && JoinsAll(a.actionType, a.sources, a.targets, p) && j < |p.edges|
    ensures ExplainedBy(a, e, p.edges[j])
  {
    assert JoinsSome(p.edges[j], a.actionType, a.sources, a.targets, p.plans);
    var s, t :| 0 <= s < |a.sources| && 0 <= t < |a.targets| && Joins(p.edges[j], a.actionType, a.sources[s], a.targets[t], p.plans[t].members);
    assert Explains(a, e, p.edges[j], s, t);
  }

  lemma EdgeIsListed(a: Action, e: Expected, edge: Edge, s: nat, t: nat)
    requires Explains(a, e, edge, s, t) && edge in e.edges
    ensures HasEdge(a, e, s, t)
  {
    var m :| 0 <= m < |e.edges| && e.edges[m] == edge;
  }

  lemma KeptPairHasEdge(a: Action, p: Part, e: Expected, s: nat, t: nat)
    requires s < |a.sources| && t < |a.targets| && Keeps(a, p, e)
    requires Joined(p.edges, a.actionType, a.sources[s], a.targets[t], p.plans[t].members)
    ensures HasEdge(a, e, s, t)
  {
    var j :| 0 <= j < |p.edges| && Joins(p.edges[j], a.actionType, a.sources[s], a.targets[t], p.plans[t].members);
    EdgeIsListed(a, e, p.edges[j], s, t);
  }

  lemma ActionKept(actions: seq<Action>, i: nat)
    requires AllConserve(actions) && Distinct(TargetInstructions(actions)) && ExpectedTopology(actions).Some? && i < |actions|
    ensures ActionPart(actions[i]).Some? && Keeps(actions[i], ActionPart(actions[i]).value, ExpectedTopology(actions).value)
  {
    assert ActionPart(actions[i]).Some? && PartConserves(actions[i], ActionPart(actions[i]).value);
    var p, e := ActionPart(actions[i]).value, ExpectedTopology(actions).value;
    forall t | 0 <= t < |actions[i].targets|
      ensures actions[i].targets[t].instructionId in e.targets && e.targets[actions[i].targets[t].instructionId].members == p.plans[t].members
    {
      PlanIsKept(actions, i, t);
    }
    forall j | 0 <= j < |p.edges|
      ensures p.edges[j] in e.edges
    {
      EdgeComesFrom(actions, p.edges[j]);
    }
  }

  lemma ActionShown(a: Action, e: Expected)
    requires UnionShape(a) && KindShape(a) && ActionPart(a).Some? && Keeps(a, ActionPart(a).value, e)
    ensures Shows(a, e)
  {
    var p := ActionPart(a).value;
    ActionJoins(a);
    forall s: nat, t: nat | s < |a.sources| && t < |a.targets|
      ensures HasEdge(a, e, s, t)
    {
      KeptPairHasEdge(a, p, e, s, t);
    }
    forall t | 0 <= t < |a.targets|
      ensures a.targets[t].instructionId in e.targets && Receives(a, a.targets[t], e.targets[a.targets[t].instructionId].members)
    {
      ActionReceives(a, t);
    }
  }

  lemma EdgeExplained(actions: seq<Action>, edge: Edge)
    requires AllConserve(actions) && Distinct(TargetInstructions(actions)) && ExpectedTopology(actions).Some?
    requires forall i | 0 <= i < |actions| :: KindShape(actions[i])
    requires edge in ExpectedTopology(actions).value.edges
    ensures Explained(actions, ExpectedTopology(actions).value, edge)
  {
    EdgeComesFrom(actions, edge);
    var i :| 0 <= i < |actions| && ActionPart(actions[i]).Some? && edge in ActionPart(actions[i]).value.edges;
    ActionKept(actions, i);
    ActionJoins(actions[i]);
    var j :| 0 <= j < |ActionPart(actions[i]).value.edges| && ActionPart(actions[i]).value.edges[j] == edge;
    KeptEdgeExplained(actions[i], ActionPart(actions[i]).value, ExpectedTopology(actions).value, j);
  }

  lemma AcceptedKinds(r: Answer, scopeId: string, scanned: Option<Qr>)
    requires Validate(r, scopeId, scanned).Some?
    ensures var actions := Validate(r, scopeId, scanned).value.answer.actions;
            && AllConserve(actions) && Distinct(TargetInstructions(actions))
            && forall i | 0 <= i < |actions| :: KindShape(actions[i])
  {
    NormalActionsFixed(r.actions);
    var actions := NormalActions(r.actions).value;
    NormalActionsAllConserve(actions);
    forall i | 0 <= i < |actions|
      ensures KindShape(actions[i])
    {
      NormalKind(actions[i]);
    }
  }

  lemma EdgesOfKinds(actions: seq<Action>)
    requires AllConserve(actions) && Distinct(TargetInstructions(actions)) && ExpectedTopology(actions).Some?
    requires forall i | 0 <= i < |actions| :: KindShape(actions[i])
    ensures forall edge | edge in ExpectedTopology(actions).value.edges :: Explained(actions, ExpectedTopology(actions).value, edge)
    ensures forall i | 0 <= i < |actions| :: Shows(actions[i], ExpectedTopology(actions).value)
  {
    var e := ExpectedTopology(actions).value;
    forall edge | edge in e.edges
      ensures Explained(actions, e, edge)
    {
      EdgeExplained(actions, edge);
    }
    forall i | 0 <= i < |actions|
      ensures Shows(actions[i], e)
    {
      ActionKept(actions, i);
      ActionShown(actions[i], e);
    }
  }

  // For every accepted answer: each expected edge joins a source and a target of one
  // action, with the role of its type, the source's instruction and the digest and
  // number of exactly the members the two share; each source of an action is joined
  // with each of its targets; and a target holds its own part of a split, or all the
  // members of its action.
  lemma ExpectedEdgesExactly(r: Answer, scopeId: string, scanned: Option<Qr>)
    requires Validate(r, scopeId, scanned).Some?
    ensures var actions := Validate(r, scopeId, scanned).value.answer.actions;
            && ExpectedTopology(actions).Some?
            && var e := ExpectedTopology(actions).value;
            && (forall edge | edge in e.edges :: Explained(actions, e, edge))
            && (forall i | 0 <= i < |actions| :: Shows(actions[i], e))
  {
    AcceptedKinds(r, scopeId, scanned);
    AcceptedTopologyConserves(r, scopeId, scanned);
    EdgesOfKinds(Validate(r, scopeId, scanned).value.answer.actions);
  }
}
