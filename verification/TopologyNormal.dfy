// Validation is a projection: an accepted answer validates to itself.  What the
// recovery check of a journal recomputes from it is another matter.
module TopologyNormal {
  import opened Common
  import opened Ordering
  import opened Members
  import opened Topology

  lemma NormalSourceFixed(s: Source, itemId: string)
    requires NormalSource(s, itemId).Some?
    ensures NormalSource(NormalSource(s, itemId).value, itemId) == NormalSource(s, itemId)
    ensures IsCanonical(NormalSource(s, itemId).value.members)
  {
    CanonicalIsCanonical(s.members);
    CanonicalIsFixed(Canonical(s.members).value);
  }

  lemma {:induction false} NormalSourcesFixed(ss: seq<Source>, itemId: string)
    requires NormalSources(ss, itemId).Some?
    ensures NormalSources(NormalSources(ss, itemId).value, itemId) == NormalSources(ss, itemId)
    ensures |NormalSources(ss, itemId).value| == |ss|
    ensures forall i | 0 <= i < |ss| ::
              NormalSource(NormalSources(ss, itemId).value[i], itemId) == Some(NormalSources(ss, itemId).value[i])
    ensures forall i | 0 <= i < |ss| :: IsCanonical(NormalSources(ss, itemId).value[i].members)
  {
    if ss != [] {
      NormalSourceFixed(ss[0], itemId);
      NormalSourcesFixed(ss[1..], itemId);
      var n := NormalSources(ss, itemId).value;
      assert n[1..] == NormalSources(ss[1..], itemId).value;
    }
  }

  lemma {:induction false} SplitPartsFacts(split: map<string, seq<string>>, ts: seq<Target>)
    requires SplitParts(split, ts).Some?
    ensures |SplitParts(split, ts).value| == |ts|
    ensures forall i | 0 <= i < |ts| :: SplitPart(split, ts[i]) == Some(SplitParts(split, ts).value[i])
    ensures forall i | 0 <= i < |ts| :: IsCanonical(SplitParts(split, ts).value[i]) && |SplitParts(split, ts).value[i]| == ts[i].qty
  {
    if ts != [] {
      SplitPartsFacts(split, ts[1..]);
      CanonicalIsCanonical(if ts[0].instructionId in split then split[ts[0].instructionId] else []);
    }
  }

  // Whoever agrees with the parts target by target yields the same parts.
  lemma {:induction false} SplitPartsFrom(split: map<string, seq<string>>, ts: seq<Target>, parts: seq<seq<string>>)
    requires |parts| == |ts|
    requires forall i | 0 <= i < |ts| :: SplitPart(split, ts[i]) == Some(parts[i])
    ensures SplitParts(split, ts) == Some(parts)
  {
    if ts != [] {
      SplitPartsFrom(split, ts[1..], parts[1..]);
      assert parts == [parts[0]] + parts[1..];
    }
  }

  // Two targets of one split never share an instruction: they would share members.
  lemma SplitTargetsDistinct(split: map<string, seq<string>>, ts: seq<Target>)
    requires SplitParts(split, ts).Some? && Canonical(Flatten(SplitParts(split, ts).value)).Some?
    requires forall i | 0 <= i < |ts| :: ts[i].qty >= 1
    ensures Distinct(Instructions(ts))
  {
    var parts := SplitParts(split, ts).value;
    SplitPartsFacts(split, ts);
    PartsAreClean(parts);
    forall i, j | 0 <= i < j < |ts|
      ensures ts[i].instructionId != ts[j].instructionId
    {
      PartsDisjoint(parts, Flatten(parts), i, j);
      assert parts[i][0] in parts[i] && parts[i][0] !in parts[j];
    }
  }

  // Canonical parts are clean, so an accepted concatenation has no duplicate.
  lemma PartsAreClean(parts: seq<seq<string>>)
    requires forall i | 0 <= i < |parts| :: IsCanonical(parts[i])
    ensures forall x | x in Flatten(parts) :: Clean(x)
    ensures StripAll(Flatten(parts)) == Flatten(parts)
    ensures Canonical(Flatten(parts)).Some? ==> Distinct(Flatten(parts))
  {
  }

  lemma {:induction false} NormalSplitLookup(ts: seq<Target>, parts: seq<seq<string>>)
    requires |ts| == |parts| && Distinct(Instructions(ts))
    ensures forall i | 0 <= i < |ts| ::
              ts[i].instructionId in NormalSplit(ts, parts) && NormalSplit(ts, parts)[ts[i].instructionId] == parts[i]
  {
    if ts != [] {
      var n := |ts| - 1;
      assert forall i, j | 0 <= i < j < |ts| :: Instructions(ts)[i] != Instructions(ts)[j];
      NormalSplitLookup(ts[..n], parts[..n]);
      forall i | 0 <= i < n
        ensures ts[i].instructionId != ts[n].instructionId
      {
        assert Instructions(ts)[i] != Instructions(ts)[n];
      }
    }
  }

  // A normalised split reads back as the same parts.
  lemma SplitNormalFixed(split: map<string, seq<string>>, ts: seq<Target>)
    requires SplitParts(split, ts).Some? && Canonical(Flatten(SplitParts(split, ts).value)).Some?
    requires forall i | 0 <= i < |ts| :: ts[i].qty >= 1
    ensures |SplitParts(split, ts).value| == |ts|
    ensures SplitParts(NormalSplit(ts, SplitParts(split, ts).value), ts) == SplitParts(split, ts)
  {
    var parts := SplitParts(split, ts).value;
    SplitPartsFacts(split, ts);
    SplitTargetsDistinct(split, ts);
    NormalSplitLookup(ts, parts);
    forall i | 0 <= i < |ts|
      ensures SplitPart(NormalSplit(ts, parts), ts[i]) == Some(parts[i])
    {
      CanonicalIsFixed(parts[i]);
    }
    SplitPartsFrom(NormalSplit(ts, parts), ts, parts);
  }

  lemma NormalTopologyFixed(kind: Kind, ss: seq<Source>, ts: seq<Target>, split: Option<map<string, seq<string>>>, union: seq<string>)
    requires NormalTopology(kind, ss, ts, split, union).Some?
    requires forall i | 0 <= i < |ts| :: ts[i].qty >= 1
    ensures NormalTopology(kind, ss, ts, NormalTopology(kind, ss, ts, split, union).value, union)
            == NormalTopology(kind, ss, ts, split, union)
  {
    if kind.SplitLabel? {
      SplitNormalFixed(split.value, ts);
    }
  }

  lemma NormalFieldsFixed(a: Action, union: seq<string>)
    requires ActionFieldsOk(a, union) && IsCanonical(union)
    ensures ActionFieldsOk(a.(state := Keyword(a.state), exchangeId := Strip(a.exchangeId), memberIds := union), union)
  {
    KeywordIdempotent(a.state);
    StripCleans(a.exchangeId);
    CanonicalIsFixed(union);
  }

  // An action all of whose parts are normal is normal.
  lemma PartsMakeNormal(a: Action)
    requires NormalSources(a.sources, Strip(a.itemId)) == Some(a.sources)
    requires forall i | 0 <= i < |a.targets| :: TargetOk(a.targets[i], Strip(a.itemId))
    requires Canonical(Flatten(MembersOf(a.sources))) == Some(a.memberIds) && ActionFieldsOk(a, a.memberIds)
    requires Keyword(a.actionType) == a.actionType && Keyword(a.state) == a.state && Strip(a.exchangeId) == a.exchangeId
    requires NormalTopology(KindOf(a.actionType), a.sources, a.targets, a.split, a.memberIds) == Some(a.split)
    requires ProcessOk(a.process, a.memberIds)
    ensures NormalAction(a) == Some(a)
  {
  }

  // One accepted action normalises to a fixed point.
  lemma NormalActionFixed(a: Action)
    requires NormalAction(a).Some?
    ensures NormalAction(NormalAction(a).value) == NormalAction(a)
  {
    var itemId := Strip(a.itemId);
    var sources := NormalSources(a.sources, itemId).value;
    var union := Canonical(Flatten(MembersOf(sources))).value;
    var actionType := Keyword(a.actionType);
    NormalSourcesFixed(a.sources, itemId);
    CanonicalIsCanonical(Flatten(MembersOf(sources)));
    KeywordIdempotent(a.actionType);
    KeywordIdempotent(a.state);
    StripCleans(a.exchangeId);
    NormalFieldsFixed(a, union);
    NormalTopologyFixed(KindOf(actionType), sources, a.targets, a.split, union);
    PartsMakeNormal(NormalAction(a).value);
  }

  lemma {:induction false} NormalActionsFixed(actions: seq<Action>)
    requires NormalActions(actions).Some?
    ensures |NormalActions(actions).value| == |actions|
    ensures forall i | 0 <= i < |actions| :: NormalAction(NormalActions(actions).value[i]) == Some(NormalActions(actions).value[i])
    ensures NormalActions(NormalActions(actions).value) == NormalActions(actions)
  {
    if actions != [] {
      var n := |actions| - 1;
      NormalActionsFixed(actions[..n]);
      NormalActionFixed(actions[n]);
      var normal := NormalActions(actions).value;
      assert normal[..n] == NormalActions(actions[..n]).value;
    }
  }

  // Validating an accepted context again accepts it unchanged.
  lemma RevalidationIsIdentity(r: Answer, scopeId: string, scanned: Option<Qr>)
    requires Validate(r, scopeId, scanned).Some?
    ensures Validate(Validate(r, scopeId, scanned).value.answer, scopeId, scanned) == Validate(r, scopeId, scanned)
  {
    NormalActionsFixed(r.actions);
  }

  // ------------------------------------------------------------ recovery

  // The check a resumed journal makes: the stored hash against one recomputed
  // from the fields of the stored context as they are.
  predicate RecoveryAccepts(c: Context) {
    c.hash == TopologyHash(c.answer.scopeId, c.answer.processContext, c.answer.scan, c.answer.reconciliation,
                           c.answer.selection, c.answer.actions, c.kind)
  }

  // A journal started from an accepted answer can be resumed exactly when the
  // server wrote the scope without outer blanks and the process in lower case.
  lemma RecoveryAcceptsExactly(r: Answer, scopeId: string, scanned: Option<Qr>)
    requires Validate(r, scopeId, scanned).Some?
    ensures RecoveryAccepts(Validate(r, scopeId, scanned).value) <==>
            r.scopeId == Strip(r.scopeId) && r.processContext == "transfer"
  {
  }

  lemma UpperCaseProcessIsAccepted()
    ensures Lower(Strip("TRANSFER")) == "transfer"
  {
  }

  // An answer that spells the process TRANSFER is accepted like any other, and
  // the journal it starts never resumes.
  lemma UpperCaseProcessStrandsTheJournal(r: Answer, scopeId: string, scanned: Option<Qr>)
    requires Validate(r, scopeId, scanned).Some?
    ensures var loud := r.(processContext := "TRANSFER");
            Validate(loud, scopeId, scanned).Some? && !RecoveryAccepts(Validate(loud, scopeId, scanned).value)
  {
    UpperCaseProcessIsAccepted();
    var loud := r.(processContext := "TRANSFER");
    assert loud.processContext[0] == 'T';
    assert "transfer"[0] == 't';
    RecoveryAcceptsExactly(loud, scopeId, scanned);
  }
}
