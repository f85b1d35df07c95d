// The target memberships and edges a client expects for an accepted context,
// and why they conserve the members.
module TopologyExpected {
  import opened Common
  import opened Ordering
  import opened Members
  import opened Topology
  import opened TopologyNormal

  datatype TargetPlan = TargetPlan(target: Target, members: seq<string>)

  datatype Role = Pair | SplitSuccessor | MergeSource

  datatype Edge = Edge(sourceLabel: string, sourceInstruction: string, targetInstruction: string, role: Role,
                       count: nat, hash: Digest)

  // What one action, or a run of actions, contributes.
  datatype Part = Part(plans: seq<TargetPlan>, edges: seq<Edge>)

  datatype Expected = Expected(sources: map<string, Source>, targets: map<string, TargetPlan>, edges: seq<Edge>, union: seq<string>)

  function EdgeOf(s: Source, t: Target, role: Role, members: seq<string>): Edge {
    Edge(s.labelId, s.instructionId, t.instructionId, role, |members|, Digest(members))
  }

  // Every lookup that can fail is an option: a missing split key, a list the
  // client cannot canonicalise, lists of different lengths.
  function SplitPlans(s: Source, ts: seq<Target>, split: map<string, seq<string>>): Option<Part> {
    if ts == [] then Some(Part([], []))
    else
      var t := ts[|ts| - 1];
      var rest := SplitPlans(s, ts[..|ts| - 1], split);
      var members := if t.instructionId in split then Canonical(split[t.instructionId]) else None;
      if rest.Some? && members.Some?
      then Some(Part(rest.value.plans + [TargetPlan(t, members.value)],
                     rest.value.edges + [EdgeOf(s, t, SplitSuccessor, members.value)]))
      else None
  }

  function MergeEdges(ss: seq<Source>, t: Target): Option<seq<Edge>> {
    if ss == [] then Some([])
    else
      var s := ss[|ss| - 1];
      var rest, members := MergeEdges(ss[..|ss| - 1], t), Canonical(s.members);
      if rest.Some? && members.Some? then Some(rest.value + [EdgeOf(s, t, MergeSource, members.value)]) else None
  }

  function ActionPart(a: Action): Option<Part> {
    match KindOf(a.actionType)
    case ExchangeDate =>
      if |a.sources| < 1 || |a.targets| != 1 then None
      else
        var members := Canonical(a.sources[0].members);
        if members.None? then None
        else Some(Part([TargetPlan(a.targets[0], members.value)], [EdgeOf(a.sources[0], a.targets[0], Pair, members.value)]))
    case SplitLabel =>
      if |a.sources| < 1 || a.split.None? then None else SplitPlans(a.sources[0], a.targets, a.split.value)
    case MergeLabels =>
      if |a.targets| < 1 then None
      else
        var merged, edges := Canonical(Flatten(MembersOf(a.sources))), MergeEdges(a.sources, a.targets[0]);
        if merged.None? || edges.None? then None else Some(Part([TargetPlan(a.targets[0], merged.value)], edges.value))
    case UnknownKind => None
  }

  function PartOf(actions: seq<Action>): Option<Part> {
    if actions == [] then Some(Part([], []))
    else
      var rest, last := PartOf(actions[..|actions| - 1]), ActionPart(actions[|actions| - 1]);
      if rest.Some? && last.Some? then Some(Part(rest.value.plans + last.value.plans, rest.value.edges + last.value.edges)) else None
  }

  function AddSources(m: map<string, Source>, ss: seq<Source>): map<string, Source> {
    if ss == [] then m else AddSources(m, ss[..|ss| - 1])[ss[|ss| - 1].labelId := ss[|ss| - 1]]
  }

  function SourcesOf(actions: seq<Action>): map<string, Source> {
    if actions == [] then map[] else AddSources(SourcesOf(actions[..|actions| - 1]), actions[|actions| - 1].sources)
  }

  function AddPlans(m: map<string, TargetPlan>, plans: seq<TargetPlan>): map<string, TargetPlan> {
    if plans == [] then m
    else AddPlans(m, plans[..|plans| - 1])[plans[|plans| - 1].target.instructionId := plans[|plans| - 1]]
  }

  function SourceMembers(actions: seq<Action>): seq<string> {
    if actions == [] then []
    else SourceMembers(actions[..|actions| - 1]) + Flatten(MembersOf(actions[|actions| - 1].sources))
  }

  function ExpectedTopology(actions: seq<Action>): Option<Expected> {
    var part, union := PartOf(actions), Canonical(SourceMembers(actions));
    if part.None? || union.None? then None
    else Some(Expected(SourcesOf(actions), AddPlans(map[], part.value.plans), part.value.edges, union.value))
  }

  // ------------------------------------------------------------ sums

  function PlanMembers(plans: seq<TargetPlan>): (r: seq<seq<string>>)
    ensures |r| == |plans|
    ensures forall i | 0 <= i < |plans| :: r[i] == plans[i].members
  {
    seq(|plans|, i requires 0 <= i < |plans| => plans[i].members)
  }

  function EdgeSum(edges: seq<Edge>): nat {
    if edges == [] then 0 else EdgeSum(edges[..|edges| - 1]) + edges[|edges| - 1].count
  }

  lemma {:induction false} EdgeSumAppend(a: seq<Edge>, b: seq<Edge>)
    ensures EdgeSum(a + b) == EdgeSum(a) + EdgeSum(b)
  {
    if b == [] {
      assert a + b == a;
    } else {
      assert (a + b)[..|a + b| - 1] == a + b[..|b| - 1];
      EdgeSumAppend(a, b[..|b| - 1]);
    }
  }

  lemma PlanMembersAppend(a: seq<TargetPlan>, b: seq<TargetPlan>)
    ensures Flatten(PlanMembers(a + b)) == Flatten(PlanMembers(a)) + Flatten(PlanMembers(b))
  {
    assert PlanMembers(a + b) == PlanMembers(a) + PlanMembers(b);
    FlattenAppend(PlanMembers(a), PlanMembers(b));
  }

  lemma FlattenOne(xs: seq<string>)
    ensures Flatten([xs]) == xs
  {
  }

  // ------------------------------------------------------------ one action

  // What the conservation argument needs of one action's contribution.
  ghost predicate PartConserves(a: Action, p: Part) {
    && |p.plans| == |a.targets|
    && (forall i | 0 <= i < |a.targets| :: p.plans[i].target == a.targets[i] && |p.plans[i].members| == a.targets[i].qty)
    && multiset(Flatten(PlanMembers(p.plans))) == multiset(a.memberIds)
    && EdgeSum(p.edges) == |a.memberIds|
  }

  // The source members of a normal action are clean and distinct, and are the
  // action's own member list.
  ghost predicate UnionShape(a: Action) {
    var flat := Flatten(MembersOf(a.sources));
    && Canonical(flat) == Some(a.memberIds) && IsCanonical(a.memberIds)
    && multiset(flat) == multiset(a.memberIds) && |flat| == |a.memberIds|
    && (forall x | x in flat :: Clean(x) && x != "")
    && (forall i | 0 <= i < |a.sources| :: IsCanonical(a.sources[i].members) && |a.sources[i].members| == a.sources[i].qty)
    && (forall i | 0 <= i < |a.targets| :: a.targets[i].qty >= 1)
  }

  lemma NormalUnion(a: Action)
    requires NormalAction(a) == Some(a)
    ensures UnionShape(a)
  {
    NormalSourcesFixed(a.sources, Strip(a.itemId));
    var flat := Flatten(MembersOf(a.sources));
    PartsAreClean(MembersOf(a.sources));
    CanonicalIsCanonical(flat);
    forall x | x in flat
      ensures Clean(x) && x != ""
    {
      assert x in multiset(a.memberIds);
    }
  }

  // The part of a normal action its kind decides.
  ghost predicate KindShape(a: Action) {
    match KindOf(a.actionType)
    case ExchangeDate => |a.sources| == 1 && |a.targets| == 1 && a.sources[0].qty == a.targets[0].qty
    case MergeLabels => |a.sources| >= 2 && |a.targets| == 1 && SourceQty(a.sources) == a.targets[0].qty
    case SplitLabel =>
      && |a.sources| == 1 && a.split.Some? && SplitParts(a.split.value, a.targets).Some?
      && var parts := SplitParts(a.split.value, a.targets).value;
      |parts| == |a.targets| && a.split.value == NormalSplit(a.targets, parts) && Canonical(Flatten(parts)) == Some(a.memberIds)
    case UnknownKind => false
  }

  lemma NormalKind(a: Action)
    requires NormalAction(a) == Some(a)
    ensures KindShape(a)
  {
    var sources := NormalSources(a.sources, Strip(a.itemId)).value;
    assert sources == a.sources && Keyword(a.actionType) == a.actionType;
  }

  lemma ExchangeConserves(a: Action)
    requires UnionShape(a) && KindShape(a) && KindOf(a.actionType).ExchangeDate?
    ensures ActionPart(a).Some? && PartConserves(a, ActionPart(a).value)
  {
    CanonicalIsFixed(a.sources[0].members);
    assert MembersOf(a.sources) == [a.sources[0].members];
    FlattenOne(a.sources[0].members);
    var p := ActionPart(a).value;
    assert PlanMembers(p.plans) == [a.sources[0].members];
    assert p.edges[..0] == [];
  }

  // Edges that count the parts count their concatenation.
  lemma {:induction false} EdgesCountParts(edges: seq<Edge>, parts: seq<seq<string>>)
    requires |edges| == |parts| && forall i | 0 <= i < |edges| :: edges[i].count == |parts[i]|
    ensures EdgeSum(edges) == |Flatten(parts)|
  {
    if edges != [] {
      var n := |edges| - 1;
      EdgesCountParts(edges[..n], parts[..n]);
      assert parts == parts[..n] + [parts[n]];
      FlattenAppend(parts[..n], [parts[n]]);
      FlattenOne(parts[n]);
    }
  }

  lemma {:induction false} SplitPlansFollow(s: Source, ts: seq<Target>, split: map<string, seq<string>>, parts: seq<seq<string>>)
    requires |parts| == |ts|
    requires forall i | 0 <= i < |ts| :: ts[i].instructionId in split && split[ts[i].instructionId] == parts[i] && IsCanonical(parts[i])
    ensures SplitPlans(s, ts, split).Some?
    ensures var p := SplitPlans(s, ts, split).value;
            && |p.plans| == |p.edges| == |ts|
            && (forall i | 0 <= i < |ts| :: p.plans[i] == TargetPlan(ts[i], parts[i]) && p.edges[i] == EdgeOf(s, ts[i], SplitSuccessor, parts[i]))
  {
    if ts != [] {
      var n := |ts| - 1;
      SplitPlansFollow(s, ts[..n], split, parts[..n]);
      CanonicalIsFixed(parts[n]);
    }
  }

  lemma SplitPlansConserve(s: Source, ts: seq<Target>, parts: seq<seq<string>>, union: seq<string>)
    requires |parts| == |ts| && Distinct(Instructions(ts)) && IsCanonical(union)
    requires forall i | 0 <= i < |ts| :: IsCanonical(parts[i]) && |parts[i]| == ts[i].qty
    requires Canonical(Flatten(parts)) == Some(union)
    ensures SplitPlans(s, ts, NormalSplit(ts, parts)).Some?
    ensures var p := SplitPlans(s, ts, NormalSplit(ts, parts)).value;
            && |p.plans| == |ts|
            && (forall i | 0 <= i < |ts| :: p.plans[i].target == ts[i] && |p.plans[i].members| == ts[i].qty)
            && multiset(Flatten(PlanMembers(p.plans))) == multiset(union) && EdgeSum(p.edges) == |union|
  {
    NormalSplitLookup(ts, parts);
    SplitPlansFollow(s, ts, NormalSplit(ts, parts), parts);
    var p := SplitPlans(s, ts, NormalSplit(ts, parts)).value;
    EdgesCountParts(p.edges, parts);
    assert PlanMembers(p.plans) == parts;
    SplitIsPartition(parts, union);
  }

  lemma SplitShape(a: Action)
    requires UnionShape(a) && KindShape(a) && KindOf(a.actionType).SplitLabel?
    ensures var parts := SplitParts(a.split.value, a.targets).value;
            && |parts| == |a.targets| && Distinct(Instructions(a.targets))
            && (forall i | 0 <= i < |a.targets| :: IsCanonical(parts[i]) && |parts[i]| == a.targets[i].qty)
  {
    SplitPartsFacts(a.split.value, a.targets);
    SplitTargetsDistinct(a.split.value, a.targets);
  }

  lemma SplitConserves(a: Action)
    requires UnionShape(a) && KindShape(a) && KindOf(a.actionType).SplitLabel?
    ensures ActionPart(a).Some? && PartConserves(a, ActionPart(a).value)
  {
    SplitShape(a);
    var parts := SplitParts(a.split.value, a.targets).value;
    SplitPlansConserve(a.sources[0], a.targets, parts, a.memberIds);
    assert ActionPart(a) == SplitPlans(a.sources[0], a.targets, NormalSplit(a.targets, parts));
  }

  // Canonical parts whose concatenation canonicalises to the union partition it.
  lemma SplitIsPartition(parts: seq<seq<string>>, union: seq<string>)
    requires (forall i | 0 <= i < |parts| :: IsCanonical(parts[i])) && IsCanonical(union)
    requires Canonical(Flatten(parts)) == Some(union)
    ensures multiset(Flatten(parts)) == multiset(union) && |Flatten(parts)| == |union|
  {
    PartsAreClean(parts);
    CanonicalIsCanonical(Flatten(parts));
  }

  lemma {:induction false} MergeEdgesFollow(ss: seq<Source>, t: Target)
    requires forall i | 0 <= i < |ss| :: IsCanonical(ss[i].members)
    ensures MergeEdges(ss, t).Some? && |MergeEdges(ss, t).value| == |ss|
    ensures forall i | 0 <= i < |ss| :: MergeEdges(ss, t).value[i] == EdgeOf(ss[i], t, MergeSource, ss[i].members)
  {
    if ss != [] {
      var n := |ss| - 1;
      MergeEdgesFollow(ss[..n], t);
      CanonicalIsFixed(ss[n].members);
    }
  }

  lemma {:induction false} SourceQtyIsCount(ss: seq<Source>)
    requires forall i | 0 <= i < |ss| :: |ss[i].members| == ss[i].qty
    ensures SourceQty(ss) == |Flatten(MembersOf(ss))|
  {
    if ss != [] {
      SourceQtyIsCount(ss[1..]);
      assert MembersOf(ss)[1..] == MembersOf(ss[1..]);
    } else {
      assert MembersOf(ss) == [];
    }
  }

  lemma MergeConserves(a: Action)
    requires UnionShape(a) && KindShape(a) && KindOf(a.actionType).MergeLabels?
    ensures ActionPart(a).Some? && PartConserves(a, ActionPart(a).value)
  {
    MergeEdgesFollow(a.sources, a.targets[0]);
    EdgesCountParts(MergeEdges(a.sources, a.targets[0]).value, MembersOf(a.sources));
    SourceQtyIsCount(a.sources);
    var p := ActionPart(a).value;
    assert PlanMembers(p.plans) == [a.memberIds];
    FlattenOne(a.memberIds);
  }

  lemma ActionConserves(a: Action)
    requires NormalAction(a) == Some(a)
    ensures ActionPart(a).Some? && PartConserves(a, ActionPart(a).value) && UnionShape(a)
  {
    NormalUnion(a);
    NormalKind(a);
    match KindOf(a.actionType)
    case ExchangeDate => ExchangeConserves(a);
    case SplitLabel => SplitConserves(a);
    case MergeLabels => MergeConserves(a);
  }

  // ------------------------------------------------------------ all actions

  function PlanTargets(plans: seq<TargetPlan>): (r: seq<string>)
    ensures |r| == |plans|
    ensures forall i | 0 <= i < |plans| :: r[i] == plans[i].target.instructionId
  {
    seq(|plans|, i requires 0 <= i < |plans| => plans[i].target.instructionId)
  }

  ghost predicate AllNormal(actions: seq<Action>) {
    forall i | 0 <= i < |actions| :: NormalAction(actions[i]) == Some(actions[i])
  }

  // Every action contributes, and contributes conservatively.
  ghost predicate AllConserve(actions: seq<Action>) {
    forall i | 0 <= i < |actions| ::
      ActionPart(actions[i]).Some? && PartConserves(actions[i], ActionPart(actions[i]).value) && UnionShape(actions[i])
  }

  lemma NormalActionsAllConserve(actions: seq<Action>)
    requires AllNormal(actions)
    ensures AllConserve(actions)
  {
    forall i | 0 <= i < |actions|
      ensures ActionPart(actions[i]).Some? && PartConserves(actions[i], ActionPart(actions[i]).value) && UnionShape(actions[i])
    {
      ActionConserves(actions[i]);
    }
  }

  lemma {:induction false} PartsConserve(actions: seq<Action>)
    requires AllConserve(actions)
    ensures PartOf(actions).Some?
    ensures var p := PartOf(actions).value;
            && multiset(Flatten(PlanMembers(p.plans))) == multiset(AllMembers(actions))
            && EdgeSum(p.edges) == |AllMembers(actions)|
  {
    if actions == [] {
      assert PlanMembers([]) == [];
    } else {
      var n := |actions| - 1;
      PartsConserve(actions[..n]);
      var rest, last := PartOf(actions[..n]).value, ActionPart(actions[n]).value;
      PlanMembersAppend(rest.plans, last.plans);
      EdgeSumAppend(rest.edges, last.edges);
    }
  }

  lemma PlanTargetsAppend(a: seq<TargetPlan>, b: seq<TargetPlan>)
    ensures PlanTargets(a + b) == PlanTargets(a) + PlanTargets(b)
  {
  }

  lemma PartFollowsTargets(a: Action, p: Part)
    requires PartConserves(a, p)
    ensures PlanTargets(p.plans) == Instructions(a.targets)
    ensures QuantitiesMet(p.plans)
  {
  }

  ghost predicate QuantitiesMet(plans: seq<TargetPlan>) {
    forall i | 0 <= i < |plans| :: |plans[i].members| == plans[i].target.qty
  }

  lemma {:induction false} PlansFollowTargets(actions: seq<Action>)
    requires AllConserve(actions)
    ensures PartOf(actions).Some?
    ensures PlanTargets(PartOf(actions).value.plans) == TargetInstructions(actions)
    ensures QuantitiesMet(PartOf(actions).value.plans)
  {
    if actions == [] {
      assert PlanTargets([]) == [];
    } else {
      var n := |actions| - 1;
      PlansFollowTargets(actions[..n]);
      var rest, last := PartOf(actions[..n]).value, ActionPart(actions[n]).value;
      PartFollowsTargets(actions[n], last);
      PlanTargetsAppend(rest.plans, last.plans);
    }
  }

  lemma {:induction false} SourceMembersFollow(actions: seq<Action>)
    requires AllConserve(actions)
    ensures multiset(SourceMembers(actions)) == multiset(AllMembers(actions))
    ensures forall x | x in SourceMembers(actions) :: Clean(x) && x != ""
  {
    if actions != [] {
      SourceMembersFollow(actions[..|actions| - 1]);
      assert UnionShape(actions[|actions| - 1]);
    }
  }

  lemma {:induction false} AddPlansKeys(plans: seq<TargetPlan>)
    ensures forall k :: k in AddPlans(map[], plans) <==> k in PlanTargets(plans)
  {
    if plans != [] {
      var n := |plans| - 1;
      AddPlansKeys(plans[..n]);
      assert PlanTargets(plans) == PlanTargets(plans[..n]) + [plans[n].target.instructionId];
    }
  }

  lemma {:induction false} AddPlansLookup(plans: seq<TargetPlan>)
    requires Distinct(PlanTargets(plans))
    ensures forall i | 0 <= i < |plans| ::
              plans[i].target.instructionId in AddPlans(map[], plans) && AddPlans(map[], plans)[plans[i].target.instructionId] == plans[i]
  {
    if plans != [] {
      var n := |plans| - 1;
      assert PlanTargets(plans[..n]) == PlanTargets(plans)[..n];
      AddPlansLookup(plans[..n]);
      forall i | 0 <= i < n
        ensures plans[i].target.instructionId != plans[n].target.instructionId
      {
        assert PlanTargets(plans)[i] != PlanTargets(plans)[n];
      }
    }
  }

  // The members conserved by an expected topology.
  ghost predicate Conserved(e: Expected) {
    && (forall s, t | s in e.targets && t in e.targets && s != t ::
          forall x | x in e.targets[s].members :: x !in e.targets[t].members)
    && (forall x :: x in e.union <==> exists t :: t in e.targets && x in e.targets[t].members)
    && (forall t | t in e.targets :: |e.targets[t].members| == e.targets[t].target.qty)
    && EdgeSum(e.edges) == |e.union|
  }

  lemma UnionAccepted(actions: seq<Action>)
    requires AllConserve(actions) && Distinct(AllMembers(actions))
    ensures Canonical(SourceMembers(actions)).Some?
    ensures multiset(Canonical(SourceMembers(actions)).value) == multiset(AllMembers(actions))
    ensures |Canonical(SourceMembers(actions)).value| == |AllMembers(actions)|
  {
    var flat := SourceMembers(actions);
    SourceMembersFollow(actions);
    assert forall i | 0 <= i < |flat| :: Clean(flat[i]) by {
      forall i | 0 <= i < |flat|
        ensures Clean(flat[i])
      {
        assert flat[i] in flat;
      }
    }
    CleanIsStripped(flat);
    DistinctIsDistinctKeys(AllMembers(actions));
    KeysStayDistinct(AllMembers(actions), flat, MemberKey);
    DistinctKeysIsDistinct(flat);
    CanonicalIsCanonical(flat);
    assert |multiset(flat)| == |flat| && |multiset(AllMembers(actions))| == |AllMembers(actions)|;
  }

  lemma PlansApart(plans: seq<TargetPlan>, whole: seq<string>, s: string, t: string)
    requires Distinct(PlanTargets(plans)) && Distinct(whole) && multiset(Flatten(PlanMembers(plans))) == multiset(whole)
    requires s in AddPlans(map[], plans) && t in AddPlans(map[], plans) && s != t
    ensures forall x | x in AddPlans(map[], plans)[s].members :: x !in AddPlans(map[], plans)[t].members
  {
    AddPlansKeys(plans);
    AddPlansLookup(plans);
    var i :| 0 <= i < |plans| && PlanTargets(plans)[i] == s;
    var j :| 0 <= j < |plans| && PlanTargets(plans)[j] == t;
    if i < j {
      PartsDisjoint(PlanMembers(plans), whole, i, j);
    } else {
      PartsDisjoint(PlanMembers(plans), whole, j, i);
    }
  }

  lemma PlannedIsMember(plans: seq<TargetPlan>, t: string, x: string)
    requires Distinct(PlanTargets(plans)) && t in AddPlans(map[], plans) && x in AddPlans(map[], plans)[t].members
    ensures x in Flatten(PlanMembers(plans))
  {
    AddPlansKeys(plans);
    AddPlansLookup(plans);
    var i :| 0 <= i < |plans| && PlanTargets(plans)[i] == t;
    assert AddPlans(map[], plans)[plans[i].target.instructionId] == plans[i];
    assert x in PlanMembers(plans)[i];
    FlattenMembers(PlanMembers(plans), x);
  }

  lemma MemberIsPlanned(plans: seq<TargetPlan>, x: string)
    requires Distinct(PlanTargets(plans)) && x in Flatten(PlanMembers(plans))
    ensures exists t :: t in AddPlans(map[], plans) && x in AddPlans(map[], plans)[t].members
  {
    AddPlansLookup(plans);
    FlattenMembers(PlanMembers(plans), x);
    var i :| 0 <= i < |plans| && x in PlanMembers(plans)[i];
    var t := plans[i].target.instructionId;
    assert t in AddPlans(map[], plans) && x in AddPlans(map[], plans)[t].members;
  }

  lemma UnionMember(plans: seq<TargetPlan>, union: seq<string>, x: string)
    requires Distinct(PlanTargets(plans)) && multiset(Flatten(PlanMembers(plans))) == multiset(union)
    ensures x in union <==> exists t :: t in AddPlans(map[], plans) && x in AddPlans(map[], plans)[t].members
  {
    assert x in union <==> x in multiset(union) <==> x in multiset(Flatten(PlanMembers(plans))) <==> x in Flatten(PlanMembers(plans));
    if x in union {
      MemberIsPlanned(plans, x);
    }
    forall t | t in AddPlans(map[], plans) && x in AddPlans(map[], plans)[t].members
      ensures x in union
    {
      PlannedIsMember(plans, t, x);
    }
  }

  lemma PlanSizes(plans: seq<TargetPlan>)
    requires Distinct(PlanTargets(plans)) && forall i | 0 <= i < |plans| :: |plans[i].members| == plans[i].target.qty
    ensures forall t | t in AddPlans(map[], plans) :: |AddPlans(map[], plans)[t].members| == AddPlans(map[], plans)[t].target.qty
  {
  }

  // Plans that partition the union conserve it.
  lemma PlansConserve(e: Expected, plans: seq<TargetPlan>, whole: seq<string>)
    requires e.targets == AddPlans(map[], plans) && Distinct(PlanTargets(plans)) && Distinct(whole)
    requires multiset(Flatten(PlanMembers(plans))) == multiset(whole) == multiset(e.union)
    requires (forall i | 0 <= i < |plans| :: |plans[i].members| == plans[i].target.qty) && EdgeSum(e.edges) == |e.union|
    ensures Conserved(e)
  {
    forall s, t | s in e.targets && t in e.targets && s != t
      ensures forall x | x in e.targets[s].members :: x !in e.targets[t].members
    {
      PlansApart(plans, whole, s, t);
    }
    forall x
      ensures x in e.union <==> exists t :: t in e.targets && x in e.targets[t].members
    {
      UnionMember(plans, e.union, x);
    }
    PlanSizes(plans);
  }

  // Conservation, for any actions that passed the checks between actions.
  lemma NormalActionsConserve(actions: seq<Action>)
    requires AllConserve(actions) && Distinct(AllMembers(actions)) && Distinct(TargetInstructions(actions))
    ensures ExpectedTopology(actions).Some? && Conserved(ExpectedTopology(actions).value)
  {
    PartsConserve(actions);
    PlansFollowTargets(actions);
    UnionAccepted(actions);
    PlansConserve(ExpectedTopology(actions).value, PartOf(actions).value.plans, AllMembers(actions));
  }

  lemma ActionsConserve(actions: seq<Action>)
    requires AllNormal(actions) && Distinct(AllMembers(actions)) && Distinct(TargetInstructions(actions))
    ensures ExpectedTopology(actions).Some? && Conserved(ExpectedTopology(actions).value)
    ensures multiset(ExpectedTopology(actions).value.union) == multiset(SourceMembers(actions))
    ensures |ExpectedTopology(actions).value.union| == |AllMembers(actions)|
  {
    NormalActionsAllConserve(actions);
    NormalActionsConserve(actions);
    SourceMembersFollow(actions);
    UnionAccepted(actions);
  }

  // For every answer the client accepts, the expected topology exists, its
  // target memberships are disjoint, together they are exactly the source
  // members, each has its target's quantity, and the edges count every member
  // once.
  lemma AcceptedTopologyConserves(r: Answer, scopeId: string, scanned: Option<Qr>)
    requires Validate(r, scopeId, scanned).Some?
    ensures var actions := Validate(r, scopeId, scanned).value.answer.actions;
            && ExpectedTopology(actions).Some?
            && Conserved(ExpectedTopology(actions).value)
            && multiset(ExpectedTopology(actions).value.union) == multiset(SourceMembers(actions))
            && |ExpectedTopology(actions).value.union| == Validate(r, scopeId, scanned).value.unionCount
  {
    NormalActionsFixed(r.actions);
    ActionsConserve(NormalActions(r.actions).value);
  }

  // ------------------------------------------------------------ accumulating form

  lemma {:induction false} AddPlansAppend(m: map<string, TargetPlan>, a: seq<TargetPlan>, b: seq<TargetPlan>)
    ensures AddPlans(m, a + b) == AddPlans(AddPlans(m, a), b)
  {
    if b == [] {
      assert a + b == a;
    } else {
      assert (a + b)[..|a + b| - 1] == a + b[..|b| - 1];
      AddPlansAppend(m, a, b[..|b| - 1]);
    }
  }

  lemma {:induction false} BrokenPrefix(actions: seq<Action>, n: nat)
    requires n <= |actions| && PartOf(actions[..n]).None?
    ensures PartOf(actions).None?
    decreases |actions| - n
  {
    if n < |actions| {
      assert actions[..n + 1][..n] == actions[..n];
      BrokenPrefix(actions, n + 1);
    } else {
      assert actions[..n] == actions;
    }
  }

  lemma PartStep(actions: seq<Action>, n: nat)
    requires n < |actions|
    ensures actions[..n + 1][..n] == actions[..n]
    ensures PartOf(actions[..n + 1]) ==
            (if PartOf(actions[..n]).Some? && ActionPart(actions[n]).Some?
             then Some(Part(PartOf(actions[..n]).value.plans + ActionPart(actions[n]).value.plans,
                            PartOf(actions[..n]).value.edges + ActionPart(actions[n]).value.edges)) else None)
    ensures SourcesOf(actions[..n + 1]) == AddSources(SourcesOf(actions[..n]), actions[n].sources)
    ensures SourceMembers(actions[..n + 1]) == SourceMembers(actions[..n]) + Flatten(MembersOf(actions[n].sources))
  {
  }

  // The loop over the actions that fills the dictionaries and the edge list.
  method DeriveExpected(actions: seq<Action>) returns (e: Option<Expected>)
    ensures e == ExpectedTopology(actions)
  {
    var sources: map<string, Source> := map[];
    var targets: map<string, TargetPlan> := map[];
    var edges: seq<Edge> := [];
    var members: seq<string> := [];
    ghost var plans: seq<TargetPlan> := [];
    var i := 0;
    while i < |actions|
      invariant i <= |actions|
      invariant PartOf(actions[..i]) == Some(Part(plans, edges)) && targets == AddPlans(map[], plans)
      invariant sources == SourcesOf(actions[..i]) && members == SourceMembers(actions[..i])
    {
      PartStep(actions, i);
      var part := ActionPart(actions[i]);
      if part.None? {
        BrokenPrefix(actions, i + 1);
        return None;
      }
      AddPlansAppend(map[], plans, part.value.plans);
      sources := AddSources(sources, actions[i].sources);
      members := members + Flatten(MembersOf(actions[i].sources));
      targets := AddPlans(targets, part.value.plans);
      edges := edges + part.value.edges;
      plans := plans + part.value.plans;
      i := i + 1;
    }
    assert actions[..i] == actions;
    var union := Canonical(members);
    return if union.None? then None else Some(Expected(sources, targets, edges, union.value));
  }
}
