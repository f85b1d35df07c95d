// What an accepted exchange shows, told on the answer it was prepared from: one label
// per source and per target, with their members, versions and states, and as many
// members in the items and in the target labels as the sources handed in.
module ExchangeMeaning {
  import opened Common
  import opened Ordering
  import opened Members
  import opened Topology
  import opened TopologyNormal
  import opened TopologyExpected
  import opened TopologyAcceptance
  import opened TopologyEdges
  import opened ExchangeEvidence

  // ------------------------------------------------------------ the source dictionary

  ghost predicate Keeps(m: map<string, Source>, s: Source) {
    s.labelId in m && m[s.labelId] == s
  }

  lemma {:induction false} AddedSources(m: map<string, Source>, ss: seq<Source>)
    requires Distinct(Labels(ss))
    ensures forall k | 0 <= k < |ss| :: Keeps(AddSources(m, ss), ss[k])
    ensures forall l | l in m && l !in Labels(ss) :: l in AddSources(m, ss) && AddSources(m, ss)[l] == m[l]
    ensures forall l :: l in AddSources(m, ss) <==> l in m || l in Labels(ss)
  {
    if ss != [] {
      var n := |ss| - 1;
      assert Labels(ss) == Labels(ss[..n]) + [ss[n].labelId];
      assert forall k | 0 <= k < n :: Labels(ss)[k] != Labels(ss)[n];
      AddedSources(m, ss[..n]);
    }
  }

  lemma {:induction false} SourcesKept(actions: seq<Action>, i: nat, k: nat)
    requires Distinct(SourceLabels(actions)) && i < |actions| && k < |actions[i].sources|
    ensures Keeps(SourcesOf(actions), actions[i].sources[k])
  {
    var n := |actions| - 1;
    var rest, last := actions[..n], actions[n];
    DistinctHalves(SourceLabels(rest), Labels(last.sources));
    AddedSources(SourcesOf(rest), last.sources);
    if i < n {
      SourcesKept(rest, i, k);
      LabelListed(rest, i, k);
    }
  }

  lemma {:induction false} LabelListed(actions: seq<Action>, i: nat, k: nat)
    requires i < |actions| && k < |actions[i].sources|
    ensures actions[i].sources[k].labelId in SourceLabels(actions)
  {
    var n := |actions| - 1;
    if i < n {
      LabelListed(actions[..n], i, k);
    } else {
      assert Labels(actions[i].sources)[k] in Labels(actions[i].sources);
    }
  }

  lemma {:induction false} SourceKeys(actions: seq<Action>)
    requires Distinct(SourceLabels(actions))
    ensures SourcesOf(actions).Keys == Values(SourceLabels(actions)) && |SourcesOf(actions)| == |SourceLabels(actions)|
  {
    DistinctSize(SourceLabels(actions));
    if actions != [] {
      var n := |actions| - 1;
      DistinctHalves(SourceLabels(actions[..n]), Labels(actions[n].sources));
      SourceKeys(actions[..n]);
      AddedSources(SourcesOf(actions[..n]), actions[n].sources);
    }
    assert |SourcesOf(actions).Keys| == |SourcesOf(actions)|;
  }

  // Every listed label is some action's source.
  ghost predicate IsSource(actions: seq<Action>, l: string, i: nat, k: nat) {
    i < |actions| && k < |actions[i].sources| && actions[i].sources[k].labelId == l
  }

  lemma {:induction false} LabelHasSource(actions: seq<Action>, l: string) returns (i: nat, k: nat)
    requires l in SourceLabels(actions)
    ensures IsSource(actions, l, i, k)
  {
    var n := |actions| - 1;
    if l in SourceLabels(actions[..n]) {
      i, k := LabelHasSource(actions[..n], l);
    } else {
      i := n;
      k :| 0 <= k < |actions[n].sources| && Labels(actions[n].sources)[k] == l;
    }
  }

  // ------------------------------------------------------------ one label per source

  // What a source label must say.
  predicate SourceReads(l: SourceLabel, s: Source, state: ExchangeState) {
    && l.labelId == s.labelId && l.qr == s.qr && l.itemId == Strip(s.itemId) && l.count == |s.members| && l.hash == s.hash
    && 1 <= l.labelVersion && 1 <= l.membershipVersion
    && (if state == Committed then l.state == Retired
        else l.state == LabelActive && l.labelVersion == s.labelVersion && l.membershipVersion == s.membershipVersion)
  }

  ghost predicate SourceShown(x: Exchange, s: Source) {
    exists m :: 0 <= m < |x.sourceLabels| && SourceReads(x.sourceLabels[m], s, x.state)
  }

  ghost predicate SourcesShown(x: Exchange, actions: seq<Action>) {
    && Distinct(SourceIds(x.sourceLabels)) && |x.sourceLabels| == |SourceLabels(actions)|
    && (forall i, k | 0 <= i < |actions| && 0 <= k < |actions[i].sources| :: SourceShown(x, actions[i].sources[k]))
  }

  // The source half of the label check.
  ghost predicate SourceLabelsPass(x: Exchange, sources: map<string, Source>) {
    && Distinct(SourceIds(x.sourceLabels)) && (set k | k in SourceIds(x.sourceLabels)) == sources.Keys
    && (forall m | 0 <= m < |x.sourceLabels| ::
          x.sourceLabels[m].labelId in sources && SourceLabelOk(x.sourceLabels[m], sources[x.sourceLabels[m].labelId], x.state))
  }

  lemma SetIsValues(ids: seq<string>)
    ensures (set k | k in ids) == Values(ids)
  {
  }

  lemma IdAt(ls: seq<SourceLabel>, id: string) returns (m: nat)
    requires id in SourceIds(ls)
    ensures m < |ls| && ls[m].labelId == id
  {
    m :| 0 <= m < |ls| && SourceIds(ls)[m] == id;
  }

  lemma PassingIsShown(x: Exchange, actions: seq<Action>)
    requires Distinct(SourceLabels(actions)) && SourceLabelsPass(x, SourcesOf(actions))
    ensures SourcesShown(x, actions)
  {
    SourceKeys(actions);
    DistinctSize(SourceIds(x.sourceLabels));
    SetIsValues(SourceIds(x.sourceLabels));
    forall i, k | 0 <= i < |actions| && 0 <= k < |actions[i].sources|
      ensures SourceShown(x, actions[i].sources[k])
    {
      SourcesKept(actions, i, k);
      var m := IdAt(x.sourceLabels, actions[i].sources[k].labelId);
      assert SourceReads(x.sourceLabels[m], actions[i].sources[k], x.state);
    }
  }

  lemma SubsetOfSameSize(a: set<string>, b: set<string>)
    requires a <= b && |a| == |b|
    ensures a == b
  {
    assert b == a + (b - a);
  }

  // With as many labels as sources, and every source shown, no label is left over.
  lemma ShownKeys(x: Exchange, actions: seq<Action>)
    requires Distinct(SourceLabels(actions)) && SourcesShown(x, actions)
    ensures (set k | k in SourceIds(x.sourceLabels)) == SourcesOf(actions).Keys
  {
    var ids := SourceIds(x.sourceLabels);
    SourceKeys(actions);
    DistinctSize(ids);
    SetIsValues(ids);
    forall l | l in SourceLabels(actions)
      ensures l in ids
    {
      var i, k := LabelHasSource(actions, l);
      assert SourceShown(x, actions[i].sources[k]);
      var m :| 0 <= m < |x.sourceLabels| && SourceReads(x.sourceLabels[m], actions[i].sources[k], x.state);
      assert ids[m] == l;
    }
    SubsetOfSameSize(Values(SourceLabels(actions)), Values(ids));
  }

  lemma ShownLabelPasses(x: Exchange, actions: seq<Action>, m: nat)
    requires Distinct(SourceLabels(actions)) && SourcesShown(x, actions) && m < |x.sourceLabels| && x.sourceLabels[m].labelId in SourceLabels(actions)
    ensures x.sourceLabels[m].labelId in SourcesOf(actions)
    ensures SourceLabelOk(x.sourceLabels[m], SourcesOf(actions)[x.sourceLabels[m].labelId], x.state)
  {
    var i, k := LabelHasSource(actions, x.sourceLabels[m].labelId);
    SourcesKept(actions, i, k);
    assert SourceShown(x, actions[i].sources[k]);
    var n :| 0 <= n < |x.sourceLabels| && SourceReads(x.sourceLabels[n], actions[i].sources[k], x.state);
    assert SourceIds(x.sourceLabels)[n] == SourceIds(x.sourceLabels)[m];
  }

  lemma SourcesShownExactly(x: Exchange, actions: seq<Action>)
    requires Distinct(SourceLabels(actions))
    ensures SourceLabelsPass(x, SourcesOf(actions)) <==> SourcesShown(x, actions)
  {
    if SourceLabelsPass(x, SourcesOf(actions)) {
      PassingIsShown(x, actions);
    } else if SourcesShown(x, actions) {
      ShownKeys(x, actions);
      SourceKeys(actions);
      forall m | 0 <= m < |x.sourceLabels|
        ensures x.sourceLabels[m].labelId in SourcesOf(actions)
        ensures SourceLabelOk(x.sourceLabels[m], SourcesOf(actions)[x.sourceLabels[m].labelId], x.state)
      {
        assert SourceIds(x.sourceLabels)[m] in SourceIds(x.sourceLabels);
        ShownLabelPasses(x, actions, m);
      }
    }
  }

  // ------------------------------------------------------------ one label per target

  // What a target label must say.
  predicate TargetReads(l: TargetLabel, t: Target, members: seq<string>, state: ExchangeState) {
    && l.instructionId == t.instructionId && l.labelId != "" && l.qr.Some? && l.qr.value == Qr(l.labelId, t.itemId, l.inputTag, l.hashPrefix)
    && |l.instanceHash| == 64 && l.instanceHash[..16] == l.hashPrefix
    && l.businessDate == t.businessDate && l.workerCode == t.workerCode && l.count == |members| && l.hash == Digest(members)
    && 1 <= l.labelVersion && 1 <= l.membershipVersion
    && (if state == Committed then l.state == LabelActive else l.state == PendingActivation || l.state == LabelPrintFailed)
  }

  ghost predicate TargetShown(x: Exchange, p: TargetPlan) {
    exists m :: 0 <= m < |x.targetLabels| && TargetReads(x.targetLabels[m], p.target, p.members, x.state)
  }

  ghost predicate TargetsShown(x: Exchange, plans: map<string, TargetPlan>) {
    Distinct(TargetIds(x.targetLabels)) && |x.targetLabels| == |plans| && forall k | k in plans :: TargetShown(x, plans[k])
  }

  // The target half of the label check.
  ghost predicate TargetLabelsPass(x: Exchange, plans: map<string, TargetPlan>) {
    && Distinct(TargetIds(x.targetLabels)) && (set k | k in TargetIds(x.targetLabels)) == plans.Keys
    && (forall m | 0 <= m < |x.targetLabels| ::
          x.targetLabels[m].instructionId in plans && TargetLabelOk(x.targetLabels[m], plans[x.targetLabels[m].instructionId], x.state))
  }

  // Plans are kept under their target's instruction.
  ghost predicate OwnKeys(plans: map<string, TargetPlan>) {
    forall k | k in plans :: plans[k].target.instructionId == k
  }

  lemma PlansPassIsShown(x: Exchange, plans: map<string, TargetPlan>)
    requires OwnKeys(plans) && TargetLabelsPass(x, plans)
    ensures TargetsShown(x, plans)
  {
    DistinctSize(TargetIds(x.targetLabels));
    SetIsValues(TargetIds(x.targetLabels));
    forall k | k in plans
      ensures TargetShown(x, plans[k])
    {
      var m :| 0 <= m < |x.targetLabels| && TargetIds(x.targetLabels)[m] == k;
      assert TargetReads(x.targetLabels[m], plans[k].target, plans[k].members, x.state);
    }
  }

  lemma PlansShownPass(x: Exchange, plans: map<string, TargetPlan>)
    requires OwnKeys(plans) && TargetsShown(x, plans)
    ensures TargetLabelsPass(x, plans)
  {
    var ids := TargetIds(x.targetLabels);
    DistinctSize(ids);
    SetIsValues(ids);
    forall k | k in plans
      ensures k in ids
    {
      assert TargetShown(x, plans[k]);
      var m :| 0 <= m < |x.targetLabels| && TargetReads(x.targetLabels[m], plans[k].target, plans[k].members, x.state);
      assert ids[m] == k;
    }
    SubsetOfSameSize(plans.Keys, Values(ids));
    forall m | 0 <= m < |x.targetLabels|
      ensures x.targetLabels[m].instructionId in plans && TargetLabelOk(x.targetLabels[m], plans[x.targetLabels[m].instructionId], x.state)
    {
      assert ids[m] in Values(ids);
      ShownTargetPasses(x, plans, m);
    }
  }

  lemma ShownTargetPasses(x: Exchange, plans: map<string, TargetPlan>, m: nat)
    requires OwnKeys(plans) && TargetsShown(x, plans) && m < |x.targetLabels| && x.targetLabels[m].instructionId in plans
    ensures TargetLabelOk(x.targetLabels[m], plans[x.targetLabels[m].instructionId], x.state)
  {
    var p := plans[x.targetLabels[m].instructionId];
    assert TargetShown(x, p);
    var n :| 0 <= n < |x.targetLabels| && TargetReads(x.targetLabels[n], p.target, p.members, x.state);
    assert TargetIds(x.targetLabels)[n] == TargetIds(x.targetLabels)[m];
  }

  lemma TargetsShownExactly(x: Exchange, plans: map<string, TargetPlan>)
    requires OwnKeys(plans)
    ensures TargetLabelsPass(x, plans) <==> TargetsShown(x, plans)
  {
    if TargetLabelsPass(x, plans) {
      PlansPassIsShown(x, plans);
    } else if TargetsShown(x, plans) {
      PlansShownPass(x, plans);
    }
  }

  lemma {:induction false} PlansOwnKeys(plans: seq<TargetPlan>)
    ensures OwnKeys(AddPlans(map[], plans))
  {
    if plans != [] {
      PlansOwnKeys(plans[..|plans| - 1]);
    }
  }

  lemma PlanCount(actions: seq<Action>)
    requires AllConserve(actions) && Distinct(TargetInstructions(actions)) && ExpectedTopology(actions).Some?
    ensures ExpectedTopology(actions).value.targets.Keys == Values(TargetInstructions(actions))
    ensures |ExpectedTopology(actions).value.targets| == |TargetInstructions(actions)|
  {
    PlansFollowTargets(actions);
    AddPlansKeys(PartOf(actions).value.plans);
    DistinctSize(TargetInstructions(actions));
    assert |ExpectedTopology(actions).value.targets.Keys| == |ExpectedTopology(actions).value.targets|;
  }

  // ------------------------------------------------------------ the whole exchange

  lemma LabelsSplit(x: Exchange, e: Expected)
    ensures LabelsMatch(x, e) && LabelsOk(x, e) <==> SourceLabelsPass(x, e.sources) && TargetLabelsPass(x, e.targets)
  {
  }

  // The two unions a client derives are one list.
  lemma UnionsAgree(actions: seq<Action>)
    requires AllConserve(actions) && Distinct(AllMembers(actions)) && ExpectedTopology(actions).Some?
    ensures ExpectedTopology(actions).value.union == SortBy(AllMembers(actions), MemberKey)
    ensures |ExpectedTopology(actions).value.union| == |AllMembers(actions)|
  {
    var union := ExpectedTopology(actions).value.union;
    UnionAccepted(actions);
    CanonicalIsCanonical(SourceMembers(actions));
    SortByPermutes(AllMembers(actions), MemberKey);
    DistinctIsDistinctKeys(union);
    AscendingUnique(union, SortBy(AllMembers(actions), MemberKey), MemberKey);
  }

  // The header and the labels of an exchange, on the answer's own counts.
  ghost predicate Matches(x: Exchange, c: Context, e: Expected) {
    var actions := c.answer.actions;
    && x.id != "" && x.scopeId == Strip(c.answer.scopeId) && x.kind == c.kind
    && x.sourceCount == |SourceLabels(actions)| && x.targetCount == |TargetInstructions(actions)|
    && x.totalQty == c.unionCount && x.union == c.union
    && SourcesShown(x, actions) && TargetsShown(x, e.targets)
  }

  lemma MatchesExactly(x: Exchange, c: Context, e: Expected)
    requires var actions := c.answer.actions;
             && AllConserve(actions) && Distinct(SourceLabels(actions)) && Distinct(TargetInstructions(actions)) && Distinct(AllMembers(actions))
             && ExpectedTopology(actions) == Some(e)
             && c.union == Digest(SortBy(AllMembers(actions), MemberKey)) && c.unionCount == |AllMembers(actions)| >= 1
    ensures HeaderMatches(x, c, e) && LabelsMatch(x, e) && LabelsOk(x, e) <==> Matches(x, c, e)
  {
    var actions := c.answer.actions;
    SourceKeys(actions);
    PlanCount(actions);
    UnionsAgree(actions);
    LabelsSplit(x, e);
    SourcesShownExactly(x, actions);
    PlansOwnKeys(PartOf(actions).value.plans);
    TargetsShownExactly(x, e.targets);
  }

  lemma AcceptedFacts(r: Answer, scopeId: string, scanned: Option<Qr>)
    requires Validate(r, scopeId, scanned).Some?
    ensures var c := Validate(r, scopeId, scanned).value;
            var actions := c.answer.actions;
            && AllConserve(actions) && Distinct(SourceLabels(actions)) && Distinct(TargetInstructions(actions)) && Distinct(AllMembers(actions))
            && ExpectedTopology(actions).Some?
            && c.union == Digest(SortBy(AllMembers(actions), MemberKey)) && c.unionCount == |AllMembers(actions)| >= 1
  {
    AcceptedApart(r, scopeId, scanned);
    AcceptedTopologyConserves(r, scopeId, scanned);
    NormalActionsFixed(r.actions);
    var actions := NormalActions(r.actions).value;
    SomeMembers(actions);
  }

  lemma SomeMembers(actions: seq<Action>)
    requires |actions| >= 1 && forall i | 0 <= i < |actions| :: NormalAction(actions[i]) == Some(actions[i])
    ensures |AllMembers(actions)| >= 1
  {
    var last := actions[|actions| - 1];
    assert last.unionCount >= 1;
  }

  // ------------------------------------------------------------ item numbers

  // The items carry the numbers one to n, each once.
  predicate Numbered(items: seq<Item>, n: nat) {
    && |items| == n && (forall i | 0 <= i < n :: 1 <= items[i].index <= n)
    && (forall i, j | 0 <= i < j < n :: items[i].index != items[j].index)
  }

  function UpTo(n: nat): set<int> { if n == 0 then {} else UpTo(n - 1) + {n} }

  lemma {:induction false} UpToSize(n: nat)
    ensures |UpTo(n)| == n && forall k :: k in UpTo(n) <==> 1 <= k <= n
  {
    if n > 0 {
      UpToSize(n - 1);
    }
  }

  function Numbers(xs: seq<int>): set<int> { set x | x in xs }

  lemma {:induction false} NumbersSize(xs: seq<int>)
    requires Distinct(xs)
    ensures |Numbers(xs)| == |xs|
  {
    if xs != [] {
      var n := |xs| - 1;
      NumbersSize(xs[..n]);
      assert xs[n] !in xs[..n];
      assert Numbers(xs) == Numbers(xs[..n]) + {xs[n]};
    }
  }

  lemma CountsOnce(xs: seq<int>, v: int)
    requires Distinct(xs)
    ensures multiset(xs)[v] == if v in xs then 1 else 0
  {
    DistinctCountsOnce(xs, v);
    assert v in xs <==> multiset(xs)[v] > 0;
  }

  lemma OneToIsUpTo(n: nat)
    ensures |OneTo(n)| == n && Distinct(OneTo(n)) && Numbers(OneTo(n)) == UpTo(n)
  {
    UpToSize(n);
    forall k | k in UpTo(n)
      ensures k in OneTo(n)
    {
      assert OneTo(n)[k - 1] == k;
    }
  }

  lemma DistinctFills(xs: seq<int>, n: nat)
    requires |xs| == n && Distinct(xs) && forall i | 0 <= i < n :: 1 <= xs[i] <= n
    ensures multiset(xs) == multiset(OneTo(n))
  {
    NumbersSize(xs);
    UpToSize(n);
    OneToIsUpTo(n);
    assert Numbers(xs) <= UpTo(n);
    assert Numbers(xs) == UpTo(n) by {
      assert UpTo(n) == Numbers(xs) + (UpTo(n) - Numbers(xs));
    }
    forall v
      ensures multiset(xs)[v] == multiset(OneTo(n))[v]
    {
      CountsOnce(xs, v);
      CountsOnce(OneTo(n), v);
      assert v in xs <==> v in Numbers(xs);
      assert v in OneTo(n) <==> v in Numbers(OneTo(n));
    }
  }

  lemma PermutedFills(xs: seq<int>, n: nat)
    requires multiset(xs) == multiset(OneTo(n))
    ensures |xs| == n && Distinct(xs) && forall i | 0 <= i < n :: 1 <= xs[i] <= n
  {
    OneToIsUpTo(n);
    UpToSize(n);
    assert |multiset(xs)| == |xs| && |multiset(OneTo(n))| == n;
    forall i, j | 0 <= i < j < |xs|
      ensures xs[i] != xs[j]
    {
      if xs[i] == xs[j] {
        RepeatCountsTwice(xs, i, j);
        CountsOnce(OneTo(n), xs[i]);
      }
    }
    forall i | 0 <= i < n
      ensures 1 <= xs[i] <= n
    {
      assert xs[i] in multiset(OneTo(n));
      assert xs[i] in Numbers(OneTo(n));
    }
  }

  lemma NumberedExactly(items: seq<Item>, n: nat)
    ensures multiset(Indexes(items)) == multiset(OneTo(n)) <==> Numbered(items, n)
  {
    var xs := Indexes(items);
    if multiset(xs) == multiset(OneTo(n)) {
      PermutedFills(xs, n);
      assert forall i | 0 <= i < n :: items[i].index == xs[i];
    }
    if Numbered(items, n) {
      DistinctFills(xs, n);
    }
  }

  // Against an accepted answer an exchange passes exactly when its header says what the
  // answer's does, every source and every target has its one label and no label is left
  // over, and its items are the expected edges under the issued labels, numbered from
  // one, all ready when the exchange says so.
  lemma ExchangeAcceptedExactly(r: Answer, scopeId: string, scanned: Option<Qr>, x: Exchange)
    requires Validate(r, scopeId, scanned).Some?
    ensures var c := Validate(r, scopeId, scanned).value;
            && ExpectedTopology(c.answer.actions).Some?
            && var e := ExpectedTopology(c.answer.actions).value;
            ExchangeAccepted(x, c, e) <==>
            && Matches(x, c, e) && ItemsWellFormed(x) && Numbered(x.items, |e.edges|)
            && multiset(ItemEdges(x.items)) == multiset(Labelled(e.edges, x.targetLabels))
            && (x.state.Ready? || x.state.Committed? ==> AllReady(x))
  {
    AcceptedFacts(r, scopeId, scanned);
    ItemsAcceptedExactly(r, scopeId, scanned, x);
    var c := Validate(r, scopeId, scanned).value;
    NumberedExactly(x.items, |ExpectedTopology(c.answer.actions).value.edges|);
    MatchesExactly(x, c, ExpectedTopology(c.answer.actions).value);
  }

  // ------------------------------------------------------------ conservation

  function SumBy<T>(xs: seq<T>, f: T -> nat): nat {
    if xs == [] then 0 else SumBy(xs[..|xs| - 1], f) + f(xs[|xs| - 1])
  }

  lemma {:induction false} SumAppend<T>(a: seq<T>, b: seq<T>, f: T -> nat)
    ensures SumBy(a + b, f) == SumBy(a, f) + SumBy(b, f)
  {
    if b == [] {
      assert a + b == a;
    } else {
      assert (a + b)[..|a + b| - 1] == a + b[..|b| - 1];
      SumAppend(a, b[..|b| - 1], f);
    }
  }

  lemma RemoveAt<T>(b: seq<T>, m: nat)
    requires m < |b|
    ensures multiset(b[..m] + b[m + 1..]) == multiset(b) - multiset{b[m]}
  {
    assert b == b[..m] + [b[m]] + b[m + 1..];
  }

  lemma SumWithout<T>(b: seq<T>, m: nat, f: T -> nat)
    requires m < |b|
    ensures SumBy(b, f) == SumBy(b[..m] + b[m + 1..], f) + f(b[m])
  {
    assert b == b[..m] + ([b[m]] + b[m + 1..]);
    SumAppend(b[..m], [b[m]] + b[m + 1..], f);
    SumAppend([b[m]], b[m + 1..], f);
    SumAppend(b[..m], b[m + 1..], f);
    assert [b[m]][..0] == [];
  }

  lemma {:induction false} SumPermutes<T>(a: seq<T>, b: seq<T>, f: T -> nat)
    requires multiset(a) == multiset(b)
    ensures SumBy(a, f) == SumBy(b, f)
  {
    assert |multiset(a)| == |a| && |multiset(b)| == |b|;
    if a != [] {
      var n := |a| - 1;
      assert a[n] in multiset(b);
      var m :| 0 <= m < |b| && b[m] == a[n];
      assert a[..n] + a[n + 1..] == a[..n];
      RemoveAt(a, n);
      RemoveAt(b, m);
      SumPermutes(a[..n], b[..m] + b[m + 1..], f);
      SumWithout(b, m, f);
    }
  }

  function ItemCount(it: Item): nat { if it.count >= 0 then it.count else 0 }

  function EdgeCount(l: LabelledEdge): nat { l.edge.count }

  lemma {:induction false} ItemsSum(items: seq<Item>)
    requires forall i | 0 <= i < |items| :: items[i].count >= 1
    ensures SumBy(items, ItemCount) == SumBy(ItemEdges(items), EdgeCount)
  {
    if items != [] {
      var n := |items| - 1;
      ItemsSum(items[..n]);
      assert ItemEdges(items)[..n] == ItemEdges(items[..n]);
    }
  }

  lemma {:induction false} EdgesSum(edges: seq<Edge>, ls: seq<TargetLabel>)
    ensures SumBy(Labelled(edges, ls), EdgeCount) == EdgeSum(edges)
  {
    if edges != [] {
      var n := |edges| - 1;
      EdgesSum(edges[..n], ls);
      assert Labelled(edges, ls)[..n] == Labelled(edges[..n], ls);
    }
  }

  // The items of an accepted exchange move every member once.
  lemma ItemsConserve(r: Answer, scopeId: string, scanned: Option<Qr>, x: Exchange)
    requires Validate(r, scopeId, scanned).Some? && ExpectedTopology(Validate(r, scopeId, scanned).value.answer.actions).Some?
    requires var c := Validate(r, scopeId, scanned).value; ExchangeAccepted(x, c, ExpectedTopology(c.answer.actions).value)
    ensures SumBy(x.items, ItemCount) == x.totalQty
  {
    AcceptedTopologyConserves(r, scopeId, scanned);
    ItemsAcceptedExactly(r, scopeId, scanned, x);
    var edges := ExpectedTopology(Validate(r, scopeId, scanned).value.answer.actions).value.edges;
    ItemsSum(x.items);
    EdgesSum(edges, x.targetLabels);
    SumPermutes(ItemEdges(x.items), Labelled(edges, x.targetLabels), EdgeCount);
  }

  function TargetCount(l: TargetLabel): nat { if l.count >= 0 then l.count else 0 }

  // How many members the plan under an instruction has.
  function PlanSize(plans: map<string, TargetPlan>): string -> nat {
    k => if k in plans then |plans[k].members| else 0
  }

  lemma {:induction false} LabelsSum(ls: seq<TargetLabel>, plans: map<string, TargetPlan>)
    requires forall m | 0 <= m < |ls| :: ls[m].instructionId in plans && ls[m].count == |plans[ls[m].instructionId].members|
    ensures SumBy(ls, TargetCount) == SumBy(TargetIds(ls), PlanSize(plans))
  {
    if ls != [] {
      var n := |ls| - 1;
      LabelsSum(ls[..n], plans);
      assert TargetIds(ls)[..n] == TargetIds(ls[..n]);
    }
  }

  lemma {:induction false} PlansSum(part: seq<TargetPlan>, plans: map<string, TargetPlan>)
    requires forall i | 0 <= i < |part| :: part[i].target.instructionId in plans && plans[part[i].target.instructionId] == part[i]
    ensures SumBy(PlanTargets(part), PlanSize(plans)) == |Flatten(PlanMembers(part))|
  {
    if part == [] {
      assert PlanMembers(part) == [];
    } else {
      var n := |part| - 1;
      PlansSum(part[..n], plans);
      assert PlanTargets(part)[..n] == PlanTargets(part[..n]);
      assert part == part[..n] + [part[n]];
      PlanMembersAppend(part[..n], [part[n]]);
      assert PlanMembers([part[n]]) == [part[n].members];
      FlattenOne(part[n].members);
    }
  }

  // The target labels of an accepted exchange hold every member once.
  lemma TargetsConserve(x: Exchange, actions: seq<Action>)
    requires AllConserve(actions) && Distinct(TargetInstructions(actions)) && ExpectedTopology(actions).Some?
    requires TargetLabelsPass(x, ExpectedTopology(actions).value.targets)
    ensures SumBy(x.targetLabels, TargetCount) == |AllMembers(actions)|
  {
    var plans, part := ExpectedTopology(actions).value.targets, PartOf(actions).value.plans;
    var ids := TargetIds(x.targetLabels);
    PartsConserve(actions);
    PlansFollowTargets(actions);
    AddPlansLookup(part);
    LabelsSum(x.targetLabels, plans);
    PlansSum(part, plans);
    PlanCount(actions);
    SetIsValues(ids);
    SameValuesOnce(ids, TargetInstructions(actions));
    SumPermutes(ids, TargetInstructions(actions), PlanSize(plans));
    assert |multiset(Flatten(PlanMembers(part)))| == |multiset(AllMembers(actions))|;
  }

  lemma SameValuesOnce(a: seq<string>, b: seq<string>)
    requires Distinct(a) && Distinct(b) && Values(a) == Values(b)
    ensures multiset(a) == multiset(b)
  {
    forall x
      ensures x in a <==> x in b
    {
      assert x in a <==> x in Values(a);
    }
    SameMembersOnce(a, b);
  }

  // In an accepted exchange the items, the target labels and the header count the same
  // members: those the answer's actions hand over.
  lemma AcceptedExchangeConserves(r: Answer, scopeId: string, scanned: Option<Qr>, x: Exchange)
    requires Validate(r, scopeId, scanned).Some? && ExpectedTopology(Validate(r, scopeId, scanned).value.answer.actions).Some?
    requires var c := Validate(r, scopeId, scanned).value; ExchangeAccepted(x, c, ExpectedTopology(c.answer.actions).value)
    ensures SumBy(x.items, ItemCount) == SumBy(x.targetLabels, TargetCount) == x.totalQty == Validate(r, scopeId, scanned).value.unionCount
  {
    AcceptedFacts(r, scopeId, scanned);
    var c := Validate(r, scopeId, scanned).value;
    var e := ExpectedTopology(c.answer.actions).value;
    ItemsConserve(r, scopeId, scanned, x);
    LabelsSplit(x, e);
    TargetsConserve(x, c.answer.actions);
    UnionsAgree(c.answer.actions);
  }
}
