// What acceptance of an answer says about the answer as the server sent it.
module TopologyMeaning {
  import opened Common
  import opened Ordering
  import opened Members
  import opened Topology
  import opened TopologyNormal
  import opened TopologyExpected

  // ------------------------------------------------------------ the kind

  predicate Says(a: Action, actionType: string) {
    Upper(Strip(a.actionType)) == actionType
  }

  predicate AllSay(actions: seq<Action>, actionType: string) {
    forall i | 0 <= i < |actions| :: Says(actions[i], actionType)
  }

  lemma NormalFront(actions: seq<Action>, n: nat)
    requires NormalActions(actions).Some? && |actions| == n + 1
    ensures NormalActions(actions[..n]).Some? && |NormalActions(actions).value| == |NormalActions(actions[..n]).value| + 1
    ensures NormalActions(actions[..n]).value <= NormalActions(actions).value
  {
  }

  lemma {:induction false} NormalPrefix(actions: seq<Action>, n: nat)
    requires NormalActions(actions).Some? && n <= |actions|
    ensures NormalActions(actions[..n]).Some? && |NormalActions(actions[..n]).value| == n
    ensures NormalActions(actions[..n]).value <= NormalActions(actions).value
    decreases |actions| - n
  {
    if n == |actions| {
      assert actions[..n] == actions;
      NormalActionsLength(actions);
    } else {
      NormalPrefix(actions, n + 1);
      assert actions[..n + 1][..n] == actions[..n];
      NormalFront(actions[..n + 1], n);
    }
  }

  lemma NormalLast(actions: seq<Action>, i: nat)
    requires NormalActions(actions).Some? && |actions| == i + 1 && |NormalActions(actions).value| == i + 1
    ensures NormalAction(actions[i]) == Some(NormalActions(actions).value[i])
  {
  }

  lemma NormalActionAt(actions: seq<Action>, i: nat)
    requires NormalActions(actions).Some? && i < |actions|
    ensures |NormalActions(actions).value| == |actions|
    ensures NormalAction(actions[i]) == Some(NormalActions(actions).value[i])
  {
    NormalActionsLength(actions);
    NormalPrefix(actions, i + 1);
    NormalLast(actions[..i + 1], i);
  }

  lemma {:induction false} NormalActionsLength(actions: seq<Action>)
    requires NormalActions(actions).Some?
    ensures |NormalActions(actions).value| == |actions|
  {
    if actions != [] {
      NormalActionsLength(actions[..|actions| - 1]);
    }
  }

  lemma NormalTypes(actions: seq<Action>)
    requires NormalActions(actions).Some?
    ensures |NormalActions(actions).value| == |actions|
    ensures forall i | 0 <= i < |actions| :: NormalActions(actions).value[i].actionType == Upper(Strip(actions[i].actionType))
  {
    NormalActionsLength(actions);
    forall i | 0 <= i < |actions|
      ensures NormalActions(actions).value[i].actionType == Upper(Strip(actions[i].actionType))
    {
      NormalActionAt(actions, i);
    }
  }

  // The kind of an accepted exchange is read off the number and the types of the
  // actions the server sent, and the selection's mode says the same.
  lemma AcceptedKindExactly(r: Answer, scopeId: string, scanned: Option<Qr>)
    requires Validate(r, scopeId, scanned).Some?
    ensures var kind := Validate(r, scopeId, scanned).value.kind;
            && (kind == SingleKind <==> |r.actions| == 1 && AllSay(r.actions, "EXCHANGE_DATE"))
            && (kind == BatchKind <==> |r.actions| >= 2 && AllSay(r.actions, "EXCHANGE_DATE"))
            && (kind == SplitKind <==> |r.actions| == 1 && AllSay(r.actions, "SPLIT"))
            && (kind == MergeKind <==> |r.actions| == 1 && AllSay(r.actions, "MERGE"))
            && (kind == SingleKind ==> Upper(Strip(r.selection.mode)) == "SINGLE_EXCHANGE_DATE")
            && (kind == BatchKind ==> Upper(Strip(r.selection.mode)) == "MULTI_EXCHANGE_DATE")
            && (kind == SplitKind || kind == MergeKind ==> Upper(Strip(r.selection.mode)) == "SINGLE_TOPOLOGY")
  {
    NormalTypes(r.actions);
    KindOfTypes(r.actions, NormalActions(r.actions).value, Keyword(r.selection.mode));
  }

  lemma KindOfTypes(actions: seq<Action>, normal: seq<Action>, mode: string)
    requires |normal| == |actions| >= 1 && ExchangeKindOf(normal, mode).Some?
    requires forall i | 0 <= i < |actions| :: normal[i].actionType == Upper(Strip(actions[i].actionType))
    ensures var kind := ExchangeKindOf(normal, mode).value;
            && (kind == SingleKind <==> |actions| == 1 && AllSay(actions, "EXCHANGE_DATE"))
            && (kind == BatchKind <==> |actions| >= 2 && AllSay(actions, "EXCHANGE_DATE"))
            && (kind == SplitKind <==> |actions| == 1 && AllSay(actions, "SPLIT"))
            && (kind == MergeKind <==> |actions| == 1 && AllSay(actions, "MERGE"))
  {
    assert Says(actions[0], normal[0].actionType);
    if AllSay(actions, "EXCHANGE_DATE") {
      assert forall i | 0 <= i < |normal| :: Says(actions[i], normal[i].actionType);
    } else {
      var i :| 0 <= i < |actions| && !Says(actions[i], "EXCHANGE_DATE");
      assert normal[i].actionType != "EXCHANGE_DATE";
    }
  }

  // ------------------------------------------------------------ one action

  // The list is the canonical arrangement of what was sent, stripped.
  ghost predicate Tidied(sent: seq<string>, kept: seq<string>) {
    IsCanonical(kept) && multiset(kept) == multiset(StripAll(sent)) && |kept| == |sent|
  }

  lemma CanonicalTidies(sent: seq<string>)
    requires Canonical(sent).Some?
    ensures Tidied(sent, Canonical(sent).value)
  {
    CanonicalIsCanonical(sent);
  }

  // Sources keep everything but the arrangement of their members.
  ghost predicate SourcesKept(sent: seq<Source>, kept: seq<Source>) {
    && |kept| == |sent|
    && forall i | 0 <= i < |sent| :: kept[i] == sent[i].(members := kept[i].members) && Tidied(sent[i].members, kept[i].members)
  }

  lemma {:induction false} NormalSourcesKept(ss: seq<Source>, itemId: string)
    requires NormalSources(ss, itemId).Some?
    ensures SourcesKept(ss, NormalSources(ss, itemId).value)
    ensures forall i | 0 <= i < |ss| :: |ss[i].members| == ss[i].qty
  {
    if ss != [] {
      NormalSourcesKept(ss[1..], itemId);
      CanonicalTidies(ss[0].members);
    }
  }

  // A split keeps, for the instructions of the targets only, what was sent for them.
  ghost predicate SplitKept(ts: seq<Target>, sent: map<string, seq<string>>, kept: map<string, seq<string>>) {
    && (forall k :: k in kept <==> k in Instructions(ts))
    && (forall k | k in kept :: k in sent && Tidied(sent[k], kept[k]))
  }

  lemma {:induction false} NormalSplitKeys(ts: seq<Target>, parts: seq<seq<string>>)
    requires |ts| == |parts|
    ensures forall k :: k in NormalSplit(ts, parts) <==> k in Instructions(ts)
  {
    if ts != [] {
      var n := |ts| - 1;
      NormalSplitKeys(ts[..n], parts[..n]);
      assert Instructions(ts) == Instructions(ts[..n]) + [ts[n].instructionId];
    }
  }

  lemma PartSent(split: map<string, seq<string>>, t: Target)
    requires SplitPart(split, t).Some? && t.qty >= 1
    ensures t.instructionId in split && Tidied(split[t.instructionId], SplitPart(split, t).value)
  {
    if t.instructionId in split {
      CanonicalTidies(split[t.instructionId]);
    } else {
      CanonicalIsCanonical([]);
    }
  }

  lemma PartsSent(split: map<string, seq<string>>, ts: seq<Target>)
    requires SplitParts(split, ts).Some? && Canonical(Flatten(SplitParts(split, ts).value)).Some?
    requires forall i | 0 <= i < |ts| :: ts[i].qty >= 1
    ensures |SplitParts(split, ts).value| == |ts| && SplitKept(ts, split, NormalSplit(ts, SplitParts(split, ts).value))
  {
    var parts := SplitParts(split, ts).value;
    SplitPartsFacts(split, ts);
    SplitTargetsDistinct(split, ts);
    NormalSplitLookup(ts, parts);
    NormalSplitKeys(ts, parts);
    forall k | k in NormalSplit(ts, parts)
      ensures k in split && Tidied(split[k], NormalSplit(ts, parts)[k])
    {
      var i :| 0 <= i < |ts| && Instructions(ts)[i] == k;
      PartSent(split, ts[i]);
    }
  }

  lemma {:induction false} TargetQtyIsCount(ts: seq<Target>, parts: seq<seq<string>>)
    requires |parts| == |ts| && forall i | 0 <= i < |ts| :: |parts[i]| == ts[i].qty
    ensures TargetQty(ts) == |Flatten(parts)|
  {
    if ts != [] {
      TargetQtyIsCount(ts[1..], parts[1..]);
    }
  }

  // What is kept of an action the server sent.
  ghost predicate ActionKept(sent: Action, kept: Action) {
    && kept == sent.(actionType := Upper(Strip(sent.actionType)), state := Upper(Strip(sent.state)), exchangeId := Strip(sent.exchangeId),
                     sources := kept.sources, memberIds := kept.memberIds, unionHash := Digest(kept.memberIds), split := kept.split)
    && SourcesKept(sent.sources, kept.sources) && Tidied(sent.memberIds, kept.memberIds)
    && (if kept.actionType == "SPLIT"
        then sent.split.Some? && kept.split.Some? && SplitKept(sent.targets, sent.split.value, kept.split.value)
        else kept.split == sent.split && (sent.split.None? || sent.split.value == map[]))
  }

  lemma NormalSplitKept(kind: Kind, ss: seq<Source>, ts: seq<Target>, split: Option<map<string, seq<string>>>, union: seq<string>)
    requires NormalTopology(kind, ss, ts, split, union).Some? && forall i | 0 <= i < |ts| :: ts[i].qty >= 1
    ensures var kept := NormalTopology(kind, ss, ts, split, union).value;
            if kind.SplitLabel? then split.Some? && kept.Some? && SplitKept(ts, split.value, kept.value)
            else kept == split && (split.None? || split.value == map[])
  {
    if kind.SplitLabel? {
      PartsSent(split.value, ts);
    }
  }

  // Normalising an action changes the spelling of its keywords and the arrangement
  // of its member lists, and nothing else.
  lemma NormalActionKeeps(a: Action)
    requires NormalAction(a).Some?
    ensures ActionKept(a, NormalAction(a).value)
  {
    var sources := NormalSources(a.sources, Strip(a.itemId)).value;
    var union := Canonical(Flatten(MembersOf(sources))).value;
    NormalSourcesKept(a.sources, Strip(a.itemId));
    CanonicalTidies(a.memberIds);
    NormalSplitKept(KindOf(Keyword(a.actionType)), sources, a.targets, a.split, union);
  }

  // ------------------------------------------------------------ quantities

  // As many as the sources hold leave in the targets, whatever the kind.
  predicate Balanced(a: Action) {
    SourceQty(a.sources) == TargetQty(a.targets) == a.unionCount == |a.memberIds| == |a.process|
  }

  lemma OneTargetQty(ts: seq<Target>)
    requires |ts| == 1
    ensures TargetQty(ts) == ts[0].qty
  {
    assert ts[1..] == [];
  }

  lemma OneSourceQty(ss: seq<Source>)
    requires |ss| == 1
    ensures SourceQty(ss) == ss[0].qty
  {
    assert ss[1..] == [];
  }

  lemma TopologyBalances(kind: Kind, ss: seq<Source>, ts: seq<Target>, split: Option<map<string, seq<string>>>, union: seq<string>)
    requires NormalTopology(kind, ss, ts, split, union).Some?
    ensures SourceQty(ss) == TargetQty(ts)
  {
    if |ts| == 1 {
      OneTargetQty(ts);
    }
    if |ss| == 1 {
      OneSourceQty(ss);
    }
  }

  lemma {:induction false} QtyKept(sent: seq<Source>, kept: seq<Source>)
    requires SourcesKept(sent, kept)
    ensures SourceQty(sent) == SourceQty(kept)
  {
    if sent != [] {
      QtyKept(sent[1..], kept[1..]);
    }
  }

  lemma AcceptedActionBalances(a: Action)
    requires NormalAction(a).Some?
    ensures Balanced(a)
  {
    var sources := NormalSources(a.sources, Strip(a.itemId)).value;
    var union := Canonical(Flatten(MembersOf(sources))).value;
    NormalSourcesKept(a.sources, Strip(a.itemId));
    QtyKept(a.sources, sources);
    SourceQtyIsCount(sources);
    CanonicalIsCanonical(Flatten(MembersOf(sources)));
    CanonicalIsCanonical(a.memberIds);
    TopologyBalances(KindOf(Keyword(a.actionType)), sources, a.targets, a.split, union);
  }

  // For every accepted answer: each action the server sent keeps its content, and
  // balances its sources against its targets.
  lemma AcceptedActionsKept(r: Answer, scopeId: string, scanned: Option<Qr>)
    requires Validate(r, scopeId, scanned).Some?
    ensures var c := Validate(r, scopeId, scanned).value;
            && c.answer == r.(actions := c.answer.actions) && |c.answer.actions| == |r.actions|
            && forall i | 0 <= i < |r.actions| :: ActionKept(r.actions[i], c.answer.actions[i]) && Balanced(r.actions[i])
  {
    NormalActionsLength(r.actions);
    forall i | 0 <= i < |r.actions|
      ensures ActionKept(r.actions[i], NormalActions(r.actions).value[i]) && Balanced(r.actions[i])
    {
      NormalActionAt(r.actions, i);
      NormalActionKeeps(r.actions[i]);
      AcceptedActionBalances(r.actions[i]);
    }
  }
}
