// When an answer is accepted, told on the fields the server sent: what the client
// computes by canonical lists is a partition of members, and a digest is the one
// canonical arrangement of what it covers.
module TopologyAcceptance {
  import opened Common
  import opened Ordering
  import opened Members
  import opened Topology
  import opened TopologyNormal
  import opened TopologyMeaning

  // ------------------------------------------------------------ lists and parts

  lemma CanonicalExactly(vs: seq<string>, c: seq<string>)
    ensures Canonical(vs) == Some(c) <==> Tidied(vs, c)
  {
    var stripped := StripAll(vs);
    forall i | 0 <= i < |vs|
      ensures Clean(stripped[i])
    {
      StripCleans(vs[i]);
    }
    CleanIsStripped(stripped);
    if Canonical(vs) == Some(c) {
      CanonicalTidies(vs);
    }
    if Tidied(vs, c) {
      CanonicalDecidesMembers(c, stripped);
    }
  }

  ghost predicate Disjoint(a: seq<string>, b: seq<string>) {
    forall x :: x in a ==> x !in b
  }

  ghost predicate AllApart(xss: seq<seq<string>>) {
    && (forall i | 0 <= i < |xss| :: Distinct(xss[i]))
    && (forall i, j | 0 <= i < j < |xss| :: Disjoint(xss[i], xss[j]))
  }

  lemma JoinedDistinct(a: seq<string>, b: seq<string>)
    ensures Distinct(a + b) <==> Distinct(a) && Distinct(b) && Disjoint(a, b)
  {
    var s := a + b;
    if Distinct(s) {
      forall i, j | 0 <= i < j < |a|
        ensures a[i] != a[j]
      {
        assert s[i] != s[j];
      }
      forall i, j | 0 <= i < j < |b|
        ensures b[i] != b[j]
      {
        assert s[|a| + i] != s[|a| + j];
      }
      forall i, j | 0 <= i < |a| && 0 <= j < |b|
        ensures a[i] != b[j]
      {
        assert s[i] != s[|a| + j];
      }
      forall x | x in a
        ensures x !in b
      {
        var i :| 0 <= i < |a| && a[i] == x;
      }
    }
    if Distinct(a) && Distinct(b) && Disjoint(a, b) {
      forall i, j | 0 <= i < j < |s|
        ensures s[i] != s[j]
      {
        if j >= |a| && i < |a| {
          assert a[i] in a && b[j - |a|] in b;
        }
      }
    }
  }

  ghost predicate InSome(xss: seq<seq<string>>, x: string) {
    exists i :: 0 <= i < |xss| && x in xss[i]
  }

  lemma {:induction false} ConcatenatedDistinct(xss: seq<seq<string>>)
    ensures Distinct(Flatten(xss)) <==> AllApart(xss)
  {
    if xss != [] {
      var rest := xss[1..];
      ConcatenatedDistinct(rest);
      JoinedDistinct(xss[0], Flatten(rest));
      HeadApart(xss);
      if AllApart(xss) {
        assert forall i | 0 <= i < |rest| :: rest[i] == xss[i + 1];
      }
    }
  }

  lemma HeadApart(xss: seq<seq<string>>)
    requires xss != []
    ensures Disjoint(xss[0], Flatten(xss[1..])) <==> forall j | 1 <= j < |xss| :: Disjoint(xss[0], xss[j])
    ensures AllApart(xss) <==> Distinct(xss[0]) && AllApart(xss[1..]) && forall j | 1 <= j < |xss| :: Disjoint(xss[0], xss[j])
  {
    var rest := xss[1..];
    assert forall i | 0 <= i < |rest| :: rest[i] == xss[i + 1];
    forall x
      ensures x in Flatten(rest) <==> InSome(rest, x)
    {
      FlattenMembers(rest, x);
    }
    if Disjoint(xss[0], Flatten(rest)) {
      forall j | 1 <= j < |xss|
        ensures Disjoint(xss[0], xss[j])
      {
        forall x | x in xss[0]
          ensures x !in xss[j]
        {
          assert x in rest[j - 1] ==> InSome(rest, x);
        }
      }
    }
    if AllApart(rest) && Distinct(xss[0]) && forall j | 1 <= j < |xss| :: Disjoint(xss[0], xss[j]) {
      forall i, j | 0 <= i < j < |xss|
        ensures Disjoint(xss[i], xss[j])
      {
        if i > 0 {
          assert Disjoint(rest[i - 1], rest[j - 1]);
        }
      }
      assert forall i | 1 <= i < |xss| :: xss[i] == rest[i - 1];
    }
    if AllApart(xss) {
      forall i, j | 0 <= i < j < |rest|
        ensures Disjoint(rest[i], rest[j])
      {
        assert Disjoint(xss[i + 1], xss[j + 1]);
      }
    }
  }

  // Every member is in exactly one part.
  ghost predicate Partition(parts: seq<seq<string>>, whole: seq<string>) {
    && (forall i, j | 0 <= i < j < |parts| :: Disjoint(parts[i], parts[j]))
    && (forall x :: x in whole <==> InSome(parts, x))
  }

  lemma SameMembersOnce(a: seq<string>, b: seq<string>)
    requires Distinct(a) && Distinct(b) && forall x :: x in a <==> x in b
    ensures multiset(a) == multiset(b)
  {
    forall x
      ensures multiset(a)[x] == multiset(b)[x]
    {
      DistinctCountsOnce(a, x);
      DistinctCountsOnce(b, x);
      assert multiset(a)[x] > 0 <==> x in a;
      assert multiset(b)[x] > 0 <==> x in b;
    }
  }

  lemma FlatMembers(parts: seq<seq<string>>)
    ensures forall x :: x in Flatten(parts) <==> InSome(parts, x)
  {
    forall x
      ensures x in Flatten(parts) <==> InSome(parts, x)
    {
      FlattenMembers(parts, x);
    }
  }

  lemma UnionPartitions(parts: seq<seq<string>>, whole: seq<string>)
    requires Distinct(whole) && multiset(whole) == multiset(Flatten(parts))
    ensures Partition(parts, whole)
  {
    var flat := Flatten(parts);
    DistinctIsDistinctKeys(whole);
    KeysStayDistinct(whole, flat, MemberKey);
    DistinctKeysIsDistinct(flat);
    ConcatenatedDistinct(parts);
    FlatMembers(parts);
    forall x
      ensures x in whole <==> x in flat
    {
      assert x in whole <==> x in multiset(whole);
    }
  }

  lemma PartitionUnites(parts: seq<seq<string>>, whole: seq<string>)
    requires Distinct(whole) && (forall i | 0 <= i < |parts| :: Distinct(parts[i])) && Partition(parts, whole)
    ensures multiset(whole) == multiset(Flatten(parts))
  {
    ConcatenatedDistinct(parts);
    FlatMembers(parts);
    SameMembersOnce(whole, Flatten(parts));
  }

  // Canonical parts canonicalise to a union exactly when they partition it.
  lemma PartitionExactly(parts: seq<seq<string>>, whole: seq<string>)
    requires forall i | 0 <= i < |parts| :: IsCanonical(parts[i])
    ensures Canonical(Flatten(parts)) == Some(whole) <==> IsCanonical(whole) && Partition(parts, whole)
  {
    PartsAreClean(parts);
    CanonicalExactly(Flatten(parts), whole);
    if IsCanonical(whole) && Partition(parts, whole) {
      PartitionUnites(parts, whole);
      assert |multiset(whole)| == |whole| && |multiset(Flatten(parts))| == |Flatten(parts)|;
    } else if Canonical(Flatten(parts)) == Some(whole) {
      UnionPartitions(parts, whole);
    }
  }

  // ------------------------------------------------------------ sources

  predicate Given(s: string) { Strip(s) != "" }

  ghost predicate SourceFits(s: Source, itemId: string) {
    && Given(s.labelId) && s.qr.Some? && s.qr.value.labelId == Strip(s.labelId) && s.qr.value.item == itemId && Strip(s.itemId) == itemId
    && s.qty >= 1 && |s.members| == s.qty && Tidied(s.members, s.hash.members)
    && Given(s.groupId) && Given(s.instructionId) && Given(s.businessDate) && Given(s.displayCode) && Given(s.workerCode)
    && s.ordinal >= 1 && s.labelVersion >= 1 && s.membershipVersion >= 1
  }

  lemma SourceAcceptedExactly(s: Source, itemId: string)
    ensures NormalSource(s, itemId).Some? <==> SourceFits(s, itemId)
    ensures NormalSource(s, itemId).Some? ==> NormalSource(s, itemId).value == s.(members := s.hash.members)
  {
    CanonicalExactly(s.members, s.hash.members);
    if Canonical(s.members).Some? {
      CanonicalTidies(s.members);
    }
  }

  ghost predicate SourcesFit(ss: seq<Source>, itemId: string) {
    forall i | 0 <= i < |ss| :: SourceFits(ss[i], itemId)
  }

  lemma {:induction false} SourcesAcceptedExactly(ss: seq<Source>, itemId: string)
    ensures NormalSources(ss, itemId).Some? <==> SourcesFit(ss, itemId)
    ensures NormalSources(ss, itemId).Some? ==> |NormalSources(ss, itemId).value| == |ss|
    ensures NormalSources(ss, itemId).Some? ==>
              forall i | 0 <= i < |ss| :: NormalSources(ss, itemId).value[i] == ss[i].(members := ss[i].hash.members)
  {
    if ss != [] {
      SourceAcceptedExactly(ss[0], itemId);
      SourcesAcceptedExactly(ss[1..], itemId);
      assert forall i | 1 <= i < |ss| :: ss[i] == ss[1..][i - 1];
    }
  }

  // The members each source's digest covers.
  function Covered(ss: seq<Source>): (r: seq<seq<string>>)
    ensures |r| == |ss|
    ensures forall i | 0 <= i < |ss| :: r[i] == ss[i].hash.members
  {
    seq(|ss|, i requires 0 <= i < |ss| => ss[i].hash.members)
  }

  predicate TargetFits(t: Target, itemId: string) {
    && Given(t.instructionId) && Given(t.businessDate) && Strip(t.itemId) == itemId
    && Given(t.displayCode) && Given(t.workerCode) && t.ordinal >= 1 && t.qty >= 1
  }

  // ------------------------------------------------------------ the split

  // What was sent for a target; a missing key is an empty list.
  function SentFor(split: map<string, seq<string>>, t: Target): seq<string> {
    if t.instructionId in split then split[t.instructionId] else []
  }

  ghost predicate PartsFit(split: map<string, seq<string>>, ts: seq<Target>, parts: seq<seq<string>>) {
    && |parts| == |ts|
    && forall i | 0 <= i < |ts| :: Tidied(SentFor(split, ts[i]), parts[i]) && |SentFor(split, ts[i])| == ts[i].qty
  }

  lemma PartAcceptedExactly(split: map<string, seq<string>>, t: Target, part: seq<string>)
    ensures SplitPart(split, t) == Some(part) <==> Tidied(SentFor(split, t), part) && |SentFor(split, t)| == t.qty
  {
    CanonicalExactly(SentFor(split, t), part);
    if Canonical(SentFor(split, t)).Some? {
      CanonicalTidies(SentFor(split, t));
    }
  }

  lemma PartsAcceptedExactly(split: map<string, seq<string>>, ts: seq<Target>, parts: seq<seq<string>>)
    ensures SplitParts(split, ts) == Some(parts) <==> PartsFit(split, ts, parts)
  {
    if SplitParts(split, ts) == Some(parts) {
      SplitPartsFacts(split, ts);
      forall i | 0 <= i < |ts|
        ensures Tidied(SentFor(split, ts[i]), parts[i]) && |SentFor(split, ts[i])| == ts[i].qty
      {
        PartAcceptedExactly(split, ts[i], parts[i]);
      }
    }
    if PartsFit(split, ts, parts) {
      forall i | 0 <= i < |ts|
        ensures SplitPart(split, ts[i]) == Some(parts[i])
      {
        PartAcceptedExactly(split, ts[i], parts[i]);
      }
      SplitPartsFrom(split, ts, parts);
    }
  }

  // The targets' lists divide the members among them.
  ghost predicate Divides(split: map<string, seq<string>>, ts: seq<Target>, whole: seq<string>) {
    exists parts: seq<seq<string>> :: PartsFit(split, ts, parts) && Partition(parts, whole)
  }

  lemma SplitAcceptedExactly(split: map<string, seq<string>>, ts: seq<Target>, whole: seq<string>)
    requires IsCanonical(whole)
    ensures SplitParts(split, ts).Some? && Canonical(Flatten(SplitParts(split, ts).value)) == Some(whole) <==> Divides(split, ts, whole)
  {
    if SplitParts(split, ts).Some? {
      var parts := SplitParts(split, ts).value;
      PartsAcceptedExactly(split, ts, parts);
      PartitionExactly(parts, whole);
    }
    if Divides(split, ts, whole) {
      var parts: seq<seq<string>> :| PartsFit(split, ts, parts) && Partition(parts, whole);
      PartsAcceptedExactly(split, ts, parts);
      PartitionExactly(parts, whole);
    }
  }

  predicate Unsplit(split: Option<map<string, seq<string>>>) { split == None || split == Some(map[]) }

  ghost predicate ShapeFits(actionType: string, ss: seq<Source>, ts: seq<Target>, split: Option<map<string, seq<string>>>, whole: seq<string>) {
    || (actionType == "EXCHANGE_DATE" && |ss| == 1 && |ts| == 1 && ss[0].qty == ts[0].qty && Unsplit(split))
    || (actionType == "MERGE" && |ss| >= 2 && |ts| == 1 && SourceQty(ss) == ts[0].qty && Unsplit(split))
    || (actionType == "SPLIT" && |ss| == 1 && |ts| >= 2 && TargetQty(ts) == ss[0].qty && split.Some? && Divides(split.value, ts, whole))
  }

  lemma ShapeAcceptedExactly(actionType: string, ss: seq<Source>, ts: seq<Target>, split: Option<map<string, seq<string>>>, whole: seq<string>)
    requires IsCanonical(whole)
    ensures NormalTopology(KindOf(actionType), ss, ts, split, whole).Some? <==> ShapeFits(actionType, ss, ts, split, whole)
  {
    if split.Some? {
      SplitAcceptedExactly(split.value, ts, whole);
      if SplitParts(split.value, ts).Some? {
        SplitPartsFacts(split.value, ts);
      }
    }
  }

  // ------------------------------------------------------------ one action

  predicate RowFits(p: ProcessRow) {
    && Given(p.ownerId) && Strip(p.bundleState) == "AVAILABLE"
    && var owner, bundle, place, state := Strip(p.ownerType), Strip(p.bundleType), Strip(p.location), Strip(p.unitState);
    || (owner == "PACKAGE" && bundle == "PHS" && place == "PHS_GOOD" && (state == "AVAILABLE" || state == "CONSUMED"))
    || (owner == "RESIDUAL" && bundle == "RESIDUAL" && place == "INSPECTION_RESIDUAL" && state == "AVAILABLE")
    || (owner == "PACKAGE" && bundle == "TRANSFER" && place == "TRANSFER" && state == "AVAILABLE")
  }

  function SentUnits(rows: seq<ProcessRow>): (r: seq<string>)
    ensures |r| == |rows|
    ensures forall i | 0 <= i < |rows| :: r[i] == rows[i].unitId
  {
    seq(|rows|, i requires 0 <= i < |rows| => rows[i].unitId)
  }

  ghost predicate ProcessFits(rows: seq<ProcessRow>, whole: seq<string>) {
    (forall i | 0 <= i < |rows| :: RowFits(rows[i])) && Tidied(SentUnits(rows), whole)
  }

  lemma StrippedUnits(rows: seq<ProcessRow>)
    ensures UnitIds(rows) == StripAll(SentUnits(rows)) && StripAll(UnitIds(rows)) == UnitIds(rows)
  {
    forall i | 0 <= i < |rows|
      ensures StripAll(UnitIds(rows))[i] == UnitIds(rows)[i]
    {
      StripCleans(rows[i].unitId);
    }
  }

  lemma ProcessAcceptedExactly(rows: seq<ProcessRow>, whole: seq<string>)
    ensures ProcessOk(rows, whole) <==> ProcessFits(rows, whole)
  {
    StrippedUnits(rows);
    CanonicalExactly(UnitIds(rows), whole);
  }

  // Proposed and not yet linked, or approved and linked to an exchange.
  predicate StateFits(a: Action) {
    || (Upper(Strip(a.state)) == "PROPOSED" && Strip(a.exchangeId) == "")
    || (Upper(Strip(a.state)) == "APPROVED" && Strip(a.exchangeId) != "")
  }

  // An acceptable action: its sources fit and partition the members its digest covers,
  // which are its member ids and its process rows' units and as many as it counts; its
  // targets fit, and its shape suits its type.
  ghost predicate Acceptable(a: Action) {
    && Given(a.actionId) && Given(a.itemId) && StateFits(a)
    && SourcesFit(a.sources, Strip(a.itemId)) && (forall i | 0 <= i < |a.targets| :: TargetFits(a.targets[i], Strip(a.itemId)))
    && var whole := a.unionHash.members;
    && IsCanonical(whole) && Partition(Covered(a.sources), whole)
    && Tidied(a.memberIds, whole) && a.unionCount == |whole| && a.unionCount >= 1
    && a.index >= 1 && 1 <= a.beforeQty <= |whole| && a.afterQty == 0
    && ShapeFits(Upper(Strip(a.actionType)), a.sources, a.targets, a.split, whole)
    && ProcessFits(a.process, whole)
  }

  lemma UnionAcceptedExactly(ss: seq<Source>, itemId: string, whole: seq<string>)
    requires NormalSources(ss, itemId).Some?
    ensures Canonical(Flatten(MembersOf(NormalSources(ss, itemId).value))) == Some(whole) <==> IsCanonical(whole) && Partition(Covered(ss), whole)
  {
    SourcesAcceptedExactly(ss, itemId);
    assert MembersOf(NormalSources(ss, itemId).value) == Covered(ss);
    PartitionExactly(Covered(ss), whole);
  }

  lemma FieldsAcceptedExactly(a: Action, whole: seq<string>)
    ensures ActionFieldsOk(a, whole) <==>
            && Given(a.actionId) && Given(a.itemId) && StateFits(a) && a.unionHash.members == whole
            && Tidied(a.memberIds, whole) && a.unionCount == |whole| && a.unionCount >= 1
            && a.index >= 1 && 1 <= a.beforeQty <= |whole| && a.afterQty == 0
  {
    CanonicalExactly(a.memberIds, whole);
  }

  lemma {:induction false} QtyUnchanged(ss: seq<Source>, ts: seq<Source>)
    requires |ss| == |ts| && forall i | 0 <= i < |ss| :: ss[i].qty == ts[i].qty
    ensures SourceQty(ss) == SourceQty(ts)
  {
    if ss != [] {
      QtyUnchanged(ss[1..], ts[1..]);
    }
  }

  // The shape reads quantities only, which normalising leaves alone.
  lemma ShapeUnchanged(a: Action, ss: seq<Source>, whole: seq<string>)
    requires IsCanonical(whole) && |ss| == |a.sources| && forall i | 0 <= i < |ss| :: ss[i].qty == a.sources[i].qty
    ensures NormalTopology(KindOf(Keyword(a.actionType)), ss, a.targets, a.split, whole).Some? <==>
            ShapeFits(Upper(Strip(a.actionType)), a.sources, a.targets, a.split, whole)
  {
    QtyUnchanged(ss, a.sources);
    ShapeAcceptedExactly(Keyword(a.actionType), ss, a.targets, a.split, whole);
  }

  lemma TargetsAcceptedExactly(ts: seq<Target>, itemId: string)
    ensures (exists i | 0 <= i < |ts| :: !TargetOk(ts[i], itemId)) <==> !(forall i | 0 <= i < |ts| :: TargetFits(ts[i], itemId))
  {
    forall i | 0 <= i < |ts|
      ensures TargetOk(ts[i], itemId) == TargetFits(ts[i], itemId)
    {
    }
  }

  lemma AcceptableIsAccepted(a: Action)
    requires Acceptable(a)
    ensures NormalAction(a).Some?
  {
    var itemId, whole := Strip(a.itemId), a.unionHash.members;
    SourcesAcceptedExactly(a.sources, itemId);
    TargetsAcceptedExactly(a.targets, itemId);
    UnionAcceptedExactly(a.sources, itemId, whole);
    FieldsAcceptedExactly(a, whole);
    ShapeUnchanged(a, NormalSources(a.sources, itemId).value, whole);
    ProcessAcceptedExactly(a.process, whole);
  }

  lemma AcceptedIsAcceptable(a: Action)
    requires NormalAction(a).Some?
    ensures Acceptable(a) && NormalAction(a).value.memberIds == a.unionHash.members
  {
    var itemId, whole := Strip(a.itemId), a.unionHash.members;
    SourcesAcceptedExactly(a.sources, itemId);
    TargetsAcceptedExactly(a.targets, itemId);
    var union := Canonical(Flatten(MembersOf(NormalSources(a.sources, itemId).value))).value;
    FieldsAcceptedExactly(a, union);
    UnionAcceptedExactly(a.sources, itemId, whole);
    ShapeUnchanged(a, NormalSources(a.sources, itemId).value, whole);
    ProcessAcceptedExactly(a.process, whole);
  }

  // One action is accepted exactly when it is acceptable.
  lemma ActionAcceptedExactly(a: Action)
    ensures NormalAction(a).Some? <==> Acceptable(a)
  {
    if Acceptable(a) {
      AcceptableIsAccepted(a);
    } else if NormalAction(a).Some? {
      AcceptedIsAcceptable(a);
    }
  }

  // ------------------------------------------------------------ the answer

  ghost predicate AllAcceptable(actions: seq<Action>) {
    forall i | 0 <= i < |actions| :: Acceptable(actions[i])
  }

  lemma AcceptableFront(actions: seq<Action>, n: nat)
    requires |actions| == n + 1 && AllAcceptable(actions)
    ensures AllAcceptable(actions[..n])
  {
    forall i | 0 <= i < n
      ensures Acceptable(actions[..n][i])
    {
      assert actions[..n][i] == actions[i];
    }
  }

  lemma {:induction false} AllAcceptableAccepted(actions: seq<Action>)
    requires AllAcceptable(actions)
    ensures NormalActions(actions).Some?
  {
    if actions != [] {
      var n := |actions| - 1;
      AcceptableFront(actions, n);
      AllAcceptableAccepted(actions[..n]);
      AcceptableIsAccepted(actions[n]);
      NormalFold(actions, n);
    }
  }

  lemma ActionsAcceptedExactly(actions: seq<Action>)
    ensures NormalActions(actions).Some? <==> AllAcceptable(actions)
  {
    if AllAcceptable(actions) {
      AllAcceptableAccepted(actions);
    } else if NormalActions(actions).Some? {
      forall i | 0 <= i < |actions|
        ensures Acceptable(actions[i])
      {
        NormalActionAt(actions, i);
        AcceptedIsAcceptable(actions[i]);
      }
    }
  }

  lemma NormalFold(actions: seq<Action>, n: nat)
    requires |actions| == n + 1
    ensures NormalActions(actions).Some? <==> NormalActions(actions[..n]).Some? && NormalAction(actions[n]).Some?
  {
  }

  function LabelLists(actions: seq<Action>): (r: seq<seq<string>>)
    ensures |r| == |actions|
    ensures forall i | 0 <= i < |actions| :: r[i] == Labels(actions[i].sources)
  {
    seq(|actions|, i requires 0 <= i < |actions| => Labels(actions[i].sources))
  }

  function InstructionLists(actions: seq<Action>): (r: seq<seq<string>>)
    ensures |r| == |actions|
    ensures forall i | 0 <= i < |actions| :: r[i] == Instructions(actions[i].targets)
  {
    seq(|actions|, i requires 0 <= i < |actions| => Instructions(actions[i].targets))
  }

  function UnionLists(actions: seq<Action>): (r: seq<seq<string>>)
    ensures |r| == |actions|
    ensures forall i | 0 <= i < |actions| :: r[i] == actions[i].unionHash.members
  {
    seq(|actions|, i requires 0 <= i < |actions| => actions[i].unionHash.members)
  }

  lemma FlattenLast(xss: seq<seq<string>>)
    requires xss != []
    ensures Flatten(xss) == Flatten(xss[..|xss| - 1]) + xss[|xss| - 1]
  {
    var n := |xss| - 1;
    assert xss == xss[..n] + [xss[n]];
    FlattenAppend(xss[..n], [xss[n]]);
    assert Flatten([xss[n]]) == xss[n];
  }

  // The normalised actions have the labels, instructions and unions that were sent.
  ghost predicate SameLists(sent: seq<Action>, kept: seq<Action>) {
    && |kept| == |sent|
    && forall i | 0 <= i < |sent| ::
         && Labels(kept[i].sources) == Labels(sent[i].sources) && kept[i].targets == sent[i].targets
         && kept[i].memberIds == sent[i].unionHash.members
  }

  lemma {:induction false} ListsFlatten(sent: seq<Action>, kept: seq<Action>)
    requires SameLists(sent, kept)
    ensures SourceLabels(kept) == Flatten(LabelLists(sent)) && TargetInstructions(kept) == Flatten(InstructionLists(sent))
    ensures AllMembers(kept) == Flatten(UnionLists(sent))
  {
    if sent != [] {
      var n := |sent| - 1;
      ListsFlatten(sent[..n], kept[..n]);
      FlattenLast(LabelLists(sent));
      FlattenLast(InstructionLists(sent));
      FlattenLast(UnionLists(sent));
      assert LabelLists(sent)[..n] == LabelLists(sent[..n]) && InstructionLists(sent)[..n] == InstructionLists(sent[..n]);
      assert UnionLists(sent)[..n] == UnionLists(sent[..n]);
    }
  }

  lemma ListsKept(actions: seq<Action>)
    requires NormalActions(actions).Some?
    ensures SameLists(actions, NormalActions(actions).value)
  {
    var kept := NormalActions(actions).value;
    NormalActionsLength(actions);
    forall i | 0 <= i < |actions|
      ensures Labels(kept[i].sources) == Labels(actions[i].sources) && kept[i].targets == actions[i].targets
      ensures kept[i].memberIds == actions[i].unionHash.members
    {
      NormalActionAt(actions, i);
      NormalActionKeeps(actions[i]);
      AcceptedIsAcceptable(actions[i]);
    }
  }

  // Distinct ids in the selection's order, and rising numbers.
  ghost predicate NumbersFit(r: Answer) {
    && (forall i, j | 0 <= i < j < |r.actions| ::
          Strip(r.actions[i].actionId) != Strip(r.actions[j].actionId) && r.actions[i].index < r.actions[j].index)
    && |r.selection.actionIds| == |r.actions|
    && (forall i | 0 <= i < |r.actions| :: Strip(r.selection.actionIds[i]) == Strip(r.actions[i].actionId))
  }

  // No label, instruction or member twice; the active label is a source.
  ghost predicate ListsFit(actions: seq<Action>, active: string) {
    && AllApart(LabelLists(actions)) && AllApart(InstructionLists(actions)) && AllApart(UnionLists(actions))
    && InSome(LabelLists(actions), active)
  }

  ghost predicate DatesFit(actions: seq<Action>, date: string) {
    forall i, k | 0 <= i < |actions| && 0 <= k < |actions[i].sources| :: Strip(actions[i].sources[k].businessDate) == date
  }

  // How the actions of an answer relate to each other and to its header.
  ghost predicate ActionsFit(r: Answer) {
    && NumbersFit(r) && ListsFit(r.actions, Strip(r.scan.activeLabel))
    && Given(r.reconciliation.businessDate) && DatesFit(r.actions, Strip(r.reconciliation.businessDate))
  }

  predicate Linked(a: Action, exchange: string) {
    Strip(a.exchangeId) == exchange && Upper(Strip(a.state)) == (if exchange == "" then "PROPOSED" else "APPROVED")
  }

  predicate AllLinked(actions: seq<Action>, exchange: string) {
    forall i | 0 <= i < |actions| :: Linked(actions[i], exchange)
  }

  // All proposed, or all approved for one exchange.
  ghost predicate LinksFit(actions: seq<Action>) {
    exists exchange :: AllLinked(actions, exchange)
  }

  // The mode says what the actions are.
  predicate ModeFits(actions: seq<Action>, mode: string) {
    || (mode == "SINGLE_EXCHANGE_DATE" && |actions| == 1 && AllSay(actions, "EXCHANGE_DATE"))
    || (mode == "MULTI_EXCHANGE_DATE" && |actions| >= 2 && AllSay(actions, "EXCHANGE_DATE"))
    || (mode == "SINGLE_TOPOLOGY" && |actions| == 1 && (AllSay(actions, "SPLIT") || AllSay(actions, "MERGE")))
  }

  predicate ScanFits(scan: Scan, scanned: Option<Qr>) {
    && scan.activeQr.Some? && scanned.Some?
    && (Upper(Strip(scan.resolution)) == "OVERLAY_ACTIVE" || Upper(Strip(scan.resolution)) == "OVERLAY_REPLACED")
    && Strip(scan.scannedLabel) == scanned.value.labelId && Strip(scan.activeLabel) == scan.activeQr.value.labelId
    && (scan.replacementRequired <==> Strip(scan.scannedLabel) != Strip(scan.activeLabel))
    && (!scan.replacementRequired ==> scanned.value == scan.activeQr.value)
  }

  predicate HeaderFits(r: Answer, scopeId: string, scanned: Option<Qr>) {
    && Strip(r.scopeId) == scopeId && Lower(Strip(r.processContext)) == "transfer" && ScanFits(r.scan, scanned)
    && 1 <= |r.actions| && |r.actions| <= 20
    && Given(r.reconciliation.id) && Strip(r.selection.reconciliationId) == Strip(r.reconciliation.id)
    && r.reconciliation.version >= 1 && r.selection.expectedVersion == r.reconciliation.version
    && (Upper(Strip(r.reconciliation.state)) == "PROPOSED" || Upper(Strip(r.reconciliation.state)) == "APPROVED")
  }

  lemma ListsExactly(actions: seq<Action>, kept: seq<Action>, active: string)
    requires SameLists(actions, kept)
    ensures Distinct(SourceLabels(kept)) && Distinct(TargetInstructions(kept)) && Distinct(AllMembers(kept)) && active in SourceLabels(kept)
            <==> ListsFit(actions, active)
  {
    ListsFlatten(actions, kept);
    ConcatenatedDistinct(LabelLists(actions));
    ConcatenatedDistinct(InstructionLists(actions));
    ConcatenatedDistinct(UnionLists(actions));
    FlatMembers(LabelLists(actions));
  }

  lemma ApartExactly(r: Answer, kept: seq<Action>)
    requires SameLists(r.actions, kept) && AllSame(r.actions, kept)
    ensures ActionsApart(kept, Strip(r.scan.activeLabel), Strip(r.reconciliation.businessDate)) && StripIds(r.selection.actionIds) == ActionIds(kept)
            <==> ActionsFit(r)
  {
    ListsExactly(r.actions, kept, Strip(r.scan.activeLabel));
    NumbersExactly(r, kept);
    DatesExactly(r.actions, kept, Strip(r.reconciliation.businessDate));
  }

  ghost predicate SameFields(a: Action, b: Action) {
    && b.actionId == a.actionId && b.index == a.index && |b.sources| == |a.sources|
    && (forall k | 0 <= k < |a.sources| :: b.sources[k].businessDate == a.sources[k].businessDate)
    && b.state == Upper(Strip(a.state)) && b.exchangeId == Strip(a.exchangeId) && b.actionType == Upper(Strip(a.actionType))
  }

  ghost predicate AllSame(actions: seq<Action>, kept: seq<Action>) {
    |kept| == |actions| && forall i | 0 <= i < |actions| :: SameFields(actions[i], kept[i])
  }

  lemma FieldsKept(actions: seq<Action>)
    requires NormalActions(actions).Some?
    ensures AllSame(actions, NormalActions(actions).value)
  {
    NormalActionsLength(actions);
    forall i | 0 <= i < |actions|
      ensures SameFields(actions[i], NormalActions(actions).value[i])
    {
      NormalActionAt(actions, i);
      NormalActionKeeps(actions[i]);
    }
  }

  lemma NumbersExactly(r: Answer, kept: seq<Action>)
    requires AllSame(r.actions, kept)
    ensures Distinct(ActionIds(kept)) && Increasing(kept) && StripIds(r.selection.actionIds) == ActionIds(kept) <==> NumbersFit(r)
  {
    var ids, sent := ActionIds(kept), StripIds(r.selection.actionIds);
    assert forall i | 0 <= i < |kept| :: ids[i] == Strip(r.actions[i].actionId);
    if sent == ids {
      assert |sent| == |ids|;
      forall i | 0 <= i < |r.actions|
        ensures Strip(r.selection.actionIds[i]) == Strip(r.actions[i].actionId)
      {
        assert sent[i] == ids[i];
      }
    }
    if Distinct(ids) && Increasing(kept) {
      forall i, j | 0 <= i < j < |r.actions|
        ensures Strip(r.actions[i].actionId) != Strip(r.actions[j].actionId) && r.actions[i].index < r.actions[j].index
      {
        assert ids[i] != ids[j] && kept[i].index < kept[j].index;
      }
    }
  }

  lemma DatesExactly(actions: seq<Action>, kept: seq<Action>, date: string)
    requires AllSame(actions, kept)
    ensures DatesAgree(kept, date) <==> DatesFit(actions, date)
  {
    if DatesAgree(kept, date) {
      forall i, k | 0 <= i < |actions| && 0 <= k < |actions[i].sources|
        ensures Strip(actions[i].sources[k].businessDate) == date
      {
        assert Strip(kept[i].sources[k].businessDate) == date;
      }
    }
  }

  lemma LinkedExactly(actions: seq<Action>, kept: seq<Action>, exchange: string)
    requires AllSame(actions, kept)
    ensures AllLinked(actions, exchange) <==>
            forall i | 0 <= i < |kept| :: kept[i].exchangeId == exchange && kept[i].state == (if exchange == "" then "PROPOSED" else "APPROVED")
  {
    if AllLinked(actions, exchange) {
      forall i | 0 <= i < |kept|
        ensures kept[i].exchangeId == exchange && kept[i].state == (if exchange == "" then "PROPOSED" else "APPROVED")
      {
        assert Linked(actions[i], exchange);
      }
    }
  }

  lemma LinksExactly(actions: seq<Action>, kept: seq<Action>)
    requires AllSame(actions, kept) && |actions| >= 1
    ensures LinksAgree(kept) <==> LinksFit(actions)
  {
    if LinksAgree(kept) {
      LinkedExactly(actions, kept, kept[0].exchangeId);
      assert AllLinked(actions, kept[0].exchangeId);
    }
    if exchange :| AllLinked(actions, exchange) {
      LinkedExactly(actions, kept, exchange);
    }
  }

  predicate AllTyped(kept: seq<Action>, actionType: string) {
    forall i | 0 <= i < |kept| :: kept[i].actionType == actionType
  }

  lemma TypesExactly(actions: seq<Action>, kept: seq<Action>, actionType: string)
    requires AllSame(actions, kept)
    ensures AllTyped(kept, actionType) <==> AllSay(actions, actionType)
  {
    if AllSay(actions, actionType) {
      forall i | 0 <= i < |kept|
        ensures kept[i].actionType == actionType
      {
        assert Says(actions[i], actionType);
      }
    }
  }

  lemma KindExactly(kept: seq<Action>, mode: string)
    requires |kept| >= 1
    ensures ExchangeKindOf(kept, mode).Some? <==>
            || (mode == "SINGLE_EXCHANGE_DATE" && |kept| == 1 && AllTyped(kept, "EXCHANGE_DATE"))
            || (mode == "MULTI_EXCHANGE_DATE" && |kept| >= 2 && AllTyped(kept, "EXCHANGE_DATE"))
            || (mode == "SINGLE_TOPOLOGY" && |kept| == 1 && (AllTyped(kept, "SPLIT") || AllTyped(kept, "MERGE")))
  {
    assert kept[0].actionType == kept[0].actionType;
  }

  lemma ModeExactly(actions: seq<Action>, kept: seq<Action>, mode: string)
    requires AllSame(actions, kept) && |actions| >= 1
    ensures ExchangeKindOf(kept, mode).Some? <==> ModeFits(actions, mode)
  {
    KindExactly(kept, mode);
    TypesExactly(actions, kept, "EXCHANGE_DATE");
    TypesExactly(actions, kept, "SPLIT");
    TypesExactly(actions, kept, "MERGE");
  }

  lemma SelectionExactly(r: Answer, kept: seq<Action>)
    requires NormalActions(r.actions) == Some(kept) && |r.actions| >= 1
    ensures SelectionOk(r, kept) <==> ActionsFit(r) && LinksFit(r.actions) && ModeFits(r.actions, Upper(Strip(r.selection.mode)))
  {
    FieldsKept(r.actions);
    ListsKept(r.actions);
    ApartExactly(r, kept);
    LinksExactly(r.actions, kept);
    ModeExactly(r.actions, kept, Keyword(r.selection.mode));
  }

  // An answer is accepted exactly when its header, its scan, each of its actions, their
  // relations, their links and its mode fit.
  lemma AnswerAcceptedExactly(r: Answer, scopeId: string, scanned: Option<Qr>)
    ensures Validate(r, scopeId, scanned).Some? <==>
            && HeaderFits(r, scopeId, scanned) && AllAcceptable(r.actions)
            && ActionsFit(r) && LinksFit(r.actions) && ModeFits(r.actions, Upper(Strip(r.selection.mode)))
  {
    ActionsAcceptedExactly(r.actions);
    HeaderExactly(r, scopeId, scanned);
    if NormalActions(r.actions).Some? && HeaderOk(r, scopeId, scanned) {
      SelectionExactly(r, NormalActions(r.actions).value);
    }
  }

  lemma HeaderExactly(r: Answer, scopeId: string, scanned: Option<Qr>)
    ensures HeaderOk(r, scopeId, scanned) <==> HeaderFits(r, scopeId, scanned)
  {
  }
}
