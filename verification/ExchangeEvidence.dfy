// The evidence a prepared exchange must show before the client prints or
// activates anything: its labels and items against the expected topology.
module ExchangeEvidence {
  import opened Common
  import opened Ordering
  import opened Members
  import opened Topology
  import opened TopologyNormal
  import opened TopologyExpected

  datatype ExchangeState = Prepared | PrintFailed | PrintPartial | Ready | Committed

  datatype ItemState = ItemPrepared | ItemFailed | ItemReady | ItemCommitted

  datatype LabelState = LabelActive | PendingActivation | LabelPrintFailed | Retired

  datatype SourceLabel = SourceLabel(labelId: string, itemId: string, qr: Option<Qr>, count: int, hash: Digest,
                                     labelVersion: int, membershipVersion: int, state: LabelState)

  datatype TargetLabel = TargetLabel(labelId: string, instructionId: string, qr: Option<Qr>, instanceHash: string,
                                     hashPrefix: string, inputTag: string, businessDate: string, workerCode: string,
                                     count: int, hash: Digest, labelVersion: int, membershipVersion: int, state: LabelState)

  datatype Item = Item(sourceLabel: string, before: string, after: string, targetLabel: string, role: Role,
                       count: int, hash: Digest, index: int, state: ItemState)

  datatype Exchange = Exchange(
    id: string, scopeId: string, kind: ExchangeKind, state: ExchangeState, sourceCount: int, targetCount: int,
    totalQty: int, union: Digest, sourceLabels: seq<SourceLabel>, targetLabels: seq<TargetLabel>, items: seq<Item>)

  // An edge with the label the server issued for its target.
  datatype LabelledEdge = LabelledEdge(edge: Edge, targetLabel: string)

  predicate HeaderMatches(x: Exchange, c: Context, e: Expected) {
    && x.id != "" && x.scopeId == Strip(c.answer.scopeId) && x.kind == c.kind
    && x.sourceCount == |e.sources| && x.targetCount == |e.targets|
    && x.totalQty == |e.union| && x.totalQty >= 1 && x.union == Digest(e.union)
  }

  function SourceIds(ls: seq<SourceLabel>): (r: seq<string>)
    ensures |r| == |ls|
  {
    seq(|ls|, i requires 0 <= i < |ls| => ls[i].labelId)
  }

  function TargetIds(ls: seq<TargetLabel>): (r: seq<string>)
    ensures |r| == |ls|
    ensures forall i | 0 <= i < |ls| :: r[i] == ls[i].instructionId
  {
    seq(|ls|, i requires 0 <= i < |ls| => ls[i].instructionId)
  }

  // The dictionaries keyed by label and by instruction lose nothing and match
  // the expected keys.
  predicate LabelsMatch(x: Exchange, e: Expected) {
    && Distinct(SourceIds(x.sourceLabels)) && Distinct(TargetIds(x.targetLabels))
    && (set k | k in SourceIds(x.sourceLabels)) == e.sources.Keys
    && (set k | k in TargetIds(x.targetLabels)) == e.targets.Keys
  }

  predicate SourceLabelOk(l: SourceLabel, s: Source, state: ExchangeState) {
    && l.qr == s.qr && l.itemId == Strip(s.itemId) && l.count == |s.members| && l.hash == s.hash
    && l.labelVersion >= 1 && l.membershipVersion >= 1
    && (!state.Committed? ==> l.labelVersion == s.labelVersion && l.membershipVersion == s.membershipVersion && l.state.LabelActive?)
    && (state.Committed? ==> l.state.Retired?)
  }

  predicate TargetLabelOk(l: TargetLabel, p: TargetPlan, state: ExchangeState) {
    && l.labelId != "" && l.qr.Some? && l.labelId == l.qr.value.labelId && l.qr.value.item == p.target.itemId
    && l.hashPrefix == l.qr.value.hash && |l.instanceHash| == 64 && l.instanceHash[..16] == l.hashPrefix
    && l.inputTag == l.qr.value.inputTag && l.businessDate == p.target.businessDate && l.workerCode == p.target.workerCode
    && l.count == |p.members| && l.hash == Digest(p.members) && l.labelVersion >= 1 && l.membershipVersion >= 1
    && (if state.Committed? then l.state.LabelActive? else l.state.PendingActivation? || l.state.LabelPrintFailed?)
  }

  predicate LabelsOk(x: Exchange, e: Expected) {
    && (forall i | 0 <= i < |x.sourceLabels| ::
          x.sourceLabels[i].labelId in e.sources && SourceLabelOk(x.sourceLabels[i], e.sources[x.sourceLabels[i].labelId], x.state))
    && (forall i | 0 <= i < |x.targetLabels| ::
          x.targetLabels[i].instructionId in e.targets
          && TargetLabelOk(x.targetLabels[i], e.targets[x.targetLabels[i].instructionId], x.state))
  }

  // ------------------------------------------------------------ items

  function LabelFor(ls: seq<TargetLabel>, instruction: string): string {
    if ls == [] then ""
    else if ls[|ls| - 1].instructionId == instruction then ls[|ls| - 1].labelId
    else LabelFor(ls[..|ls| - 1], instruction)
  }

  function Labelled(edges: seq<Edge>, ls: seq<TargetLabel>): (r: seq<LabelledEdge>)
    ensures |r| == |edges|
    ensures forall i | 0 <= i < |edges| :: r[i] == LabelledEdge(edges[i], LabelFor(ls, edges[i].targetInstruction))
  {
    seq(|edges|, i requires 0 <= i < |edges| => LabelledEdge(edges[i], LabelFor(ls, edges[i].targetInstruction)))
  }

  function RoleText(r: Role): string {
    match r
    case Pair => "PAIR"
    case SplitSuccessor => "SPLIT_SUCCESSOR"
    case MergeSource => "MERGE_SOURCE"
  }

  function EdgeKey(l: LabelledEdge): Key {
    [l.edge.sourceLabel, l.edge.sourceInstruction, l.edge.targetInstruction, l.targetLabel, RoleText(l.edge.role)]
  }

  function ItemEdge(it: Item): LabelledEdge
    requires it.count >= 0
  {
    LabelledEdge(Edge(it.sourceLabel, it.before, it.after, it.role, it.count, it.hash), it.targetLabel)
  }

  predicate ReadyItem(it: Item) { it.state.ItemReady? || it.state.ItemCommitted? }

  function LabelIds(ls: seq<TargetLabel>): set<string> {
    set l | l in ls :: l.labelId
  }

  function ItemEdges(items: seq<Item>): (r: seq<LabelledEdge>)
    requires forall i | 0 <= i < |items| :: items[i].count >= 1
    ensures |r| == |items|
    ensures forall i | 0 <= i < |items| :: r[i] == ItemEdge(items[i])
  {
    seq(|items|, i requires 0 <= i < |items| => ItemEdge(items[i]))
  }

  function Indexes(items: seq<Item>): seq<int> {
    seq(|items|, i requires 0 <= i < |items| => items[i].index)
  }

  function OneTo(n: nat): seq<int> {
    seq(n, i => i + 1)
  }

  // A target is ready when it has items and all of them are.
  predicate TargetReady(items: seq<Item>, labelId: string) {
    && (exists i | 0 <= i < |items| :: items[i].targetLabel == labelId)
    && (forall i | 0 <= i < |items| && items[i].targetLabel == labelId :: ReadyItem(items[i]))
  }

  predicate AllReady(x: Exchange) {
    forall i | 0 <= i < |x.targetLabels| :: TargetReady(x.items, x.targetLabels[i].labelId)
  }

  predicate ItemsWellFormed(x: Exchange) {
    forall i | 0 <= i < |x.items| ::
      x.items[i].targetLabel in LabelIds(x.targetLabels) && x.items[i].index >= 1 && x.items[i].count >= 1
  }

  // The item check as the client performs it: sorted indexes, then key-sorted
  // edge lists, then the readiness the exchange state promises.
  predicate ItemsAccepted(x: Exchange, edges: seq<Edge>) {
    && ItemsWellFormed(x)
    && multiset(Indexes(x.items)) == multiset(OneTo(|edges|))
    && SortBy(ItemEdges(x.items), EdgeKey) == SortBy(Labelled(edges, x.targetLabels), EdgeKey)
    && (x.state.Ready? || x.state.Committed? ==> AllReady(x))
  }

  predicate ExchangeAccepted(x: Exchange, c: Context, e: Expected) {
    HeaderMatches(x, c, e) && LabelsMatch(x, e) && LabelsOk(x, e) && ItemsAccepted(x, e.edges)
  }

  // ------------------------------------------------------------ edges are distinct

  ghost predicate PairsDistinct(edges: seq<Edge>) {
    forall i, j | 0 <= i < j < |edges| ::
      edges[i].sourceLabel != edges[j].sourceLabel || edges[i].targetInstruction != edges[j].targetInstruction
  }

  ghost predicate EdgesWithin(edges: seq<Edge>, labels: seq<string>) {
    forall i | 0 <= i < |edges| :: edges[i].sourceLabel in labels
  }

  ghost predicate Reaches(edges: seq<Edge>, instruction: string) {
    exists i :: 0 <= i < |edges| && edges[i].targetInstruction == instruction
  }

  ghost predicate TargetsCovered(edges: seq<Edge>, instructions: seq<string>) {
    forall k | 0 <= k < |instructions| :: Reaches(edges, instructions[k])
  }

  lemma {:induction false} SplitEdges(s: Source, ts: seq<Target>, split: map<string, seq<string>>)
    requires SplitPlans(s, ts, split).Some?
    ensures var edges := SplitPlans(s, ts, split).value.edges;
            |edges| == |ts| && forall i | 0 <= i < |ts| :: edges[i].sourceLabel == s.labelId && edges[i].targetInstruction == ts[i].instructionId
  {
    if ts != [] {
      SplitEdges(s, ts[..|ts| - 1], split);
    }
  }

  ghost predicate EdgesOk(a: Action) {
    && ActionPart(a).Some?
    && var edges := ActionPart(a).value.edges;
    PairsDistinct(edges) && EdgesWithin(edges, Labels(a.sources)) && TargetsCovered(edges, Instructions(a.targets))
  }

  lemma PairEdge(a: Action)
    requires KindShape(a) && ActionPart(a).Some? && KindOf(a.actionType).ExchangeDate?
    ensures EdgesOk(a)
  {
    var edges := ActionPart(a).value.edges;
    assert Labels(a.sources)[0] == a.sources[0].labelId;
    assert edges[0].targetInstruction == Instructions(a.targets)[0];
  }

  lemma SplitEdgesOk(a: Action)
    requires KindShape(a) && ActionPart(a).Some? && KindOf(a.actionType).SplitLabel? && Distinct(Instructions(a.targets))
    ensures EdgesOk(a)
  {
    var edges := ActionPart(a).value.edges;
    SplitEdges(a.sources[0], a.targets, a.split.value);
    assert Labels(a.sources)[0] == a.sources[0].labelId;
    assert forall k | 0 <= k < |edges| :: edges[k].targetInstruction == Instructions(a.targets)[k];
  }

  lemma MergeEdgesOk(a: Action)
    requires UnionShape(a) && KindShape(a) && ActionPart(a).Some? && KindOf(a.actionType).MergeLabels? && Distinct(Labels(a.sources))
    ensures EdgesOk(a)
  {
    var edges := ActionPart(a).value.edges;
    MergeEdgesFollow(a.sources, a.targets[0]);
    assert forall i | 0 <= i < |edges| :: edges[i].sourceLabel == Labels(a.sources)[i];
    assert edges[0].targetInstruction == Instructions(a.targets)[0];
  }

  // The edges of one action: distinct pairs, from its sources, one to each target.
  lemma ActionEdges(a: Action)
    requires UnionShape(a) && KindShape(a) && ActionPart(a).Some?
    requires Distinct(Labels(a.sources)) && Distinct(Instructions(a.targets))
    ensures EdgesOk(a)
  {
    match KindOf(a.actionType) {
      case ExchangeDate => PairEdge(a);
      case SplitLabel => SplitEdgesOk(a);
      case MergeLabels => MergeEdgesOk(a);
    }
  }

  lemma AppendCovered(a: seq<Edge>, b: seq<Edge>, ia: seq<string>, ib: seq<string>)
    requires TargetsCovered(a, ia) && TargetsCovered(b, ib)
    ensures TargetsCovered(a + b, ia + ib)
  {
    var edges, instructions := a + b, ia + ib;
    forall k | 0 <= k < |instructions|
      ensures Reaches(edges, instructions[k])
    {
      if k < |ia| {
        var i :| 0 <= i < |a| && a[i].targetInstruction == ia[k];
        assert edges[i] == a[i];
      } else {
        var i :| 0 <= i < |b| && b[i].targetInstruction == ib[k - |ia|];
        assert edges[|a| + i] == b[i];
      }
    }
  }

  lemma AppendEdges(a: seq<Edge>, b: seq<Edge>, la: seq<string>, lb: seq<string>)
    requires PairsDistinct(a) && PairsDistinct(b) && EdgesWithin(a, la) && EdgesWithin(b, lb) && forall x | x in la :: x !in lb
    ensures PairsDistinct(a + b) && EdgesWithin(a + b, la + lb)
  {
  }

  ghost predicate ShapesOk(actions: seq<Action>) {
    forall i | 0 <= i < |actions| :: UnionShape(actions[i]) && KindShape(actions[i]) && ActionPart(actions[i]).Some?
  }

  lemma DistinctHalves(xs: seq<string>, ys: seq<string>)
    requires Distinct(xs + ys)
    ensures Distinct(xs) && Distinct(ys) && forall x | x in xs :: x !in ys
  {
    var both := xs + ys;
    assert forall i | 0 <= i < |xs| :: xs[i] == both[i];
    assert forall j | 0 <= j < |ys| :: ys[j] == both[|xs| + j];
  }

  lemma {:induction false} AllEdges(actions: seq<Action>)
    requires ShapesOk(actions) && Distinct(SourceLabels(actions)) && Distinct(TargetInstructions(actions)) && PartOf(actions).Some?
    ensures var edges := PartOf(actions).value.edges;
            PairsDistinct(edges) && EdgesWithin(edges, SourceLabels(actions)) && TargetsCovered(edges, TargetInstructions(actions))
  {
    if actions != [] {
      var n := |actions| - 1;
      var rest, last := actions[..n], actions[n];
      DistinctHalves(SourceLabels(rest), Labels(last.sources));
      DistinctHalves(TargetInstructions(rest), Instructions(last.targets));
      AllEdges(rest);
      ActionEdges(last);
      AppendEdges(PartOf(rest).value.edges, ActionPart(last).value.edges, SourceLabels(rest), Labels(last.sources));
      AppendCovered(PartOf(rest).value.edges, ActionPart(last).value.edges, TargetInstructions(rest), Instructions(last.targets));
    }
  }

  lemma LabelledKeysDistinct(edges: seq<Edge>, ls: seq<TargetLabel>)
    requires PairsDistinct(edges)
    ensures DistinctKeys(Labelled(edges, ls), EdgeKey)
  {
  }

  // ------------------------------------------------------------ main result

  lemma AcceptedShapes(r: Answer, scopeId: string, scanned: Option<Qr>)
    requires Validate(r, scopeId, scanned).Some?
    ensures ShapesOk(Validate(r, scopeId, scanned).value.answer.actions)
  {
    NormalActionsFixed(r.actions);
    var actions := NormalActions(r.actions).value;
    forall i | 0 <= i < |actions|
      ensures UnionShape(actions[i]) && KindShape(actions[i]) && ActionPart(actions[i]).Some?
    {
      NormalKind(actions[i]);
      ActionConserves(actions[i]);
    }
  }

  // Against an accepted context, the client's item check passes exactly when the
  // items are a permutation of the expected edges with the indexes 1..n, each
  // aimed at an issued label, and a READY or COMMITTED exchange has every target
  // ready.
  lemma ItemsAcceptedExactly(r: Answer, scopeId: string, scanned: Option<Qr>, x: Exchange)
    requires Validate(r, scopeId, scanned).Some?
    ensures var actions := Validate(r, scopeId, scanned).value.answer.actions;
            && ExpectedTopology(actions).Some?
            && var edges := ExpectedTopology(actions).value.edges;
            ItemsAccepted(x, edges) <==>
            && ItemsWellFormed(x)
            && multiset(Indexes(x.items)) == multiset(OneTo(|edges|))
            && multiset(ItemEdges(x.items)) == multiset(Labelled(edges, x.targetLabels))
            && (x.state.Ready? || x.state.Committed? ==> AllReady(x))
  {
    AcceptedTopologyConserves(r, scopeId, scanned);
    AcceptedShapes(r, scopeId, scanned);
    var actions := Validate(r, scopeId, scanned).value.answer.actions;
    AllEdges(actions);
    var edges := ExpectedTopology(actions).value.edges;
    LabelledKeysDistinct(edges, x.targetLabels);
    if ItemsWellFormed(x) {
      SortedEqualityIsPermutation(ItemEdges(x.items), Labelled(edges, x.targetLabels), EdgeKey);
    }
  }

  lemma {:induction false} LabelForFinds(ls: seq<TargetLabel>, k: nat)
    requires k < |ls| && Distinct(TargetIds(ls))
    ensures LabelFor(ls, ls[k].instructionId) == ls[k].labelId
  {
    var n := |ls| - 1;
    if k < n {
      assert TargetIds(ls)[k] != TargetIds(ls)[n];
      assert TargetIds(ls[..n]) == TargetIds(ls)[..n];
      LabelForFinds(ls[..n], k);
    }
  }

  lemma CoveredTarget(actions: seq<Action>, instruction: string)
    requires ShapesOk(actions) && Distinct(SourceLabels(actions)) && Distinct(TargetInstructions(actions)) && AllConserve(actions)
    requires PartOf(actions).Some? && instruction in PlanTargets(PartOf(actions).value.plans)
    ensures Reaches(PartOf(actions).value.edges, instruction)
  {
    AllEdges(actions);
    PlansFollowTargets(actions);
    var k :| 0 <= k < |TargetInstructions(actions)| && TargetInstructions(actions)[k] == instruction;
  }

  lemma EdgeHasItem(x: Exchange, edges: seq<Edge>, i: nat, k: nat)
    requires i < |edges| && k < |x.targetLabels| && Distinct(TargetIds(x.targetLabels)) && ItemsWellFormed(x)
    requires multiset(ItemEdges(x.items)) == multiset(Labelled(edges, x.targetLabels))
    requires edges[i].targetInstruction == x.targetLabels[k].instructionId
    ensures exists m :: 0 <= m < |x.items| && x.items[m].targetLabel == x.targetLabels[k].labelId
  {
    LabelForFinds(x.targetLabels, k);
    var l := Labelled(edges, x.targetLabels)[i];
    assert l in multiset(ItemEdges(x.items));
    var m :| 0 <= m < |x.items| && ItemEdges(x.items)[m] == l;
    assert x.items[m].targetLabel == x.targetLabels[k].labelId;
  }

  lemma CoveredByItem(actions: seq<Action>, x: Exchange, k: nat)
    requires ShapesOk(actions) && AllConserve(actions) && Distinct(SourceLabels(actions)) && Distinct(TargetInstructions(actions))
    requires ExpectedTopology(actions).Some? && k < |x.targetLabels| && ItemsWellFormed(x)
    requires LabelsMatch(x, ExpectedTopology(actions).value)
    requires multiset(ItemEdges(x.items)) == multiset(Labelled(ExpectedTopology(actions).value.edges, x.targetLabels))
    ensures exists m :: 0 <= m < |x.items| && x.items[m].targetLabel == x.targetLabels[k].labelId
  {
    var part := PartOf(actions).value;
    AddPlansKeys(part.plans);
    assert TargetIds(x.targetLabels)[k] == x.targetLabels[k].instructionId;
    CoveredTarget(actions, x.targetLabels[k].instructionId);
    var i :| 0 <= i < |part.edges| && part.edges[i].targetInstruction == x.targetLabels[k].instructionId;
    EdgeHasItem(x, part.edges, i, k);
  }

  lemma AcceptedApart(r: Answer, scopeId: string, scanned: Option<Qr>)
    requires Validate(r, scopeId, scanned).Some?
    ensures var actions := Validate(r, scopeId, scanned).value.answer.actions;
            ShapesOk(actions) && AllConserve(actions) && Distinct(SourceLabels(actions)) && Distinct(TargetInstructions(actions))
  {
    AcceptedShapes(r, scopeId, scanned);
    NormalActionsFixed(r.actions);
    NormalActionsAllConserve(NormalActions(r.actions).value);
  }

  // An accepted exchange leaves no target label without an item.
  lemma EveryTargetHasAnItem(r: Answer, scopeId: string, scanned: Option<Qr>, x: Exchange, k: nat)
    requires Validate(r, scopeId, scanned).Some? && k < |x.targetLabels|
    requires ExpectedTopology(Validate(r, scopeId, scanned).value.answer.actions).Some?
    requires ExchangeAccepted(x, Validate(r, scopeId, scanned).value,
                              ExpectedTopology(Validate(r, scopeId, scanned).value.answer.actions).value)
    ensures exists m :: 0 <= m < |x.items| && x.items[m].targetLabel == x.targetLabels[k].labelId
  {
    AcceptedApart(r, scopeId, scanned);
    ItemsAcceptedExactly(r, scopeId, scanned, x);
    CoveredByItem(Validate(r, scopeId, scanned).value.answer.actions, x, k);
  }

  // ------------------------------------------------------------ the loop

  // The readiness flags collected for one label.
  function Flags(items: seq<Item>, labelId: string): seq<bool> {
    if items == [] then []
    else Flags(items[..|items| - 1], labelId)
         + (if items[|items| - 1].targetLabel == labelId then [ReadyItem(items[|items| - 1])] else [])
  }

  ghost predicate HasItem(items: seq<Item>, labelId: string) {
    exists i :: 0 <= i < |items| && items[i].targetLabel == labelId
  }

  lemma {:induction false} FlagsFound(items: seq<Item>, labelId: string)
    ensures Flags(items, labelId) != [] <==> HasItem(items, labelId)
  {
    if items != [] {
      var n := |items| - 1;
      FlagsFound(items[..n], labelId);
      if HasItem(items[..n], labelId) {
        var i :| 0 <= i < n && items[..n][i].targetLabel == labelId;
        assert items[i].targetLabel == labelId;
      }
      if HasItem(items, labelId) && items[n].targetLabel != labelId {
        var i :| 0 <= i < |items| && items[i].targetLabel == labelId;
        assert items[..n][i].targetLabel == labelId;
      }
    }
  }

  lemma {:induction false} FlagsAllTrue(items: seq<Item>, labelId: string)
    ensures false !in Flags(items, labelId) <==>
            forall i | 0 <= i < |items| && items[i].targetLabel == labelId :: ReadyItem(items[i])
  {
    if items != [] {
      var n := |items| - 1;
      FlagsAllTrue(items[..n], labelId);
      assert forall i | 0 <= i < n :: items[..n][i] == items[i];
    }
  }

  lemma FlagsDecideReady(items: seq<Item>, labelId: string)
    ensures TargetReady(items, labelId) <==> Flags(items, labelId) != [] && false !in Flags(items, labelId)
  {
    FlagsFound(items, labelId);
    FlagsAllTrue(items, labelId);
  }

  // One item more, for every label.
  function AddFlag(readiness: map<string, seq<bool>>, item: Item): map<string, seq<bool>>
    requires item.targetLabel in readiness
  {
    readiness[item.targetLabel := readiness[item.targetLabel] + [ReadyItem(item)]]
  }

  lemma FlagsStep(items: seq<Item>, i: nat, readiness: map<string, seq<bool>>)
    requires i < |items| && items[i].targetLabel in readiness && forall l | l in readiness :: readiness[l] == Flags(items[..i], l)
    ensures var next := AddFlag(readiness, items[i]);
            next.Keys == readiness.Keys && forall l | l in next :: next[l] == Flags(items[..i + 1], l)
  {
    assert items[..i + 1][..i] == items[..i];
  }

  predicate GoodItem(item: Item, labels: set<string>) {
    item.targetLabel in labels && item.index >= 1 && item.count >= 1
  }

  // The client's own pass over the items: it grows the flags per label, and stops
  // at the first malformed item.
  method CollectFlags(items: seq<Item>, labels: set<string>) returns (ok: bool, readiness: map<string, seq<bool>>)
    ensures ok <==> forall k | 0 <= k < |items| :: GoodItem(items[k], labels)
    ensures ok ==> readiness.Keys == labels && forall l | l in readiness :: readiness[l] == Flags(items, l)
  {
    readiness := map l | l in labels :: [];
    var i := 0;
    while i < |items|
      invariant i <= |items| && readiness.Keys == labels
      invariant forall k | 0 <= k < i :: GoodItem(items[k], labels)
      invariant forall l | l in readiness :: readiness[l] == Flags(items[..i], l)
    {
      if !GoodItem(items[i], labels) {
        return false, readiness;
      }
      FlagsStep(items, i, readiness);
      readiness := AddFlag(readiness, items[i]);
      i := i + 1;
    }
    assert items[..i] == items;
    return true, readiness;
  }

  lemma GoodItemsAreWellFormed(x: Exchange)
    ensures ItemsWellFormed(x) <==> forall k | 0 <= k < |x.items| :: GoodItem(x.items[k], LabelIds(x.targetLabels))
  {
  }

  method CheckItems(x: Exchange, edges: seq<Edge>) returns (ok: bool)
    ensures ok == ItemsAccepted(x, edges)
  {
    var wellFormed, readiness := CollectFlags(x.items, LabelIds(x.targetLabels));
    GoodItemsAreWellFormed(x);
    if !wellFormed {
      return false;
    }
    ReadyByFlags(x, readiness);
    var allReady := forall l | l in readiness :: readiness[l] != [] && false !in readiness[l];
    return multiset(Indexes(x.items)) == multiset(OneTo(|edges|))
        && SortBy(ItemEdges(x.items), EdgeKey) == SortBy(Labelled(edges, x.targetLabels), EdgeKey)
        && (x.state.Ready? || x.state.Committed? ==> allReady);
  }

  lemma ReadyByFlags(x: Exchange, readiness: map<string, seq<bool>>)
    requires readiness.Keys == LabelIds(x.targetLabels) && forall l | l in readiness :: readiness[l] == Flags(x.items, l)
    ensures AllReady(x) <==> forall l | l in readiness :: readiness[l] != [] && false !in readiness[l]
  {
    forall l | l in readiness
      ensures TargetReady(x.items, l) <==> readiness[l] != [] && false !in readiness[l]
    {
      FlagsDecideReady(x.items, l);
    }
    forall i | 0 <= i < |x.targetLabels|
      ensures x.targetLabels[i].labelId in readiness
    {
      assert x.targetLabels[i] in x.targetLabels;
    }
  }
}
