// One label of two members split over two targets: an answer the client accepts,
// so that what is proved of accepted answers is about something.
module TopologyExample {
  import opened Common
  import opened Ordering
  import opened Members
  import opened Topology
  import opened TopologyNormal

  const QR := Qr("L", "I", "T", "H")

  const PAIR := ["1", "2"]

  const SOURCE := Source("L", "I", PAIR, 2, Digest(PAIR), Some(QR), "G", "N", "D", "C", "W", 1, 1, 1)

  const TARGETS := [Target("A", "D", "I", "C", "W", 1, 1), Target("B", "D", "I", "C", "W", 2, 1)]

  function Row(unit: string): ProcessRow {
    ProcessRow("PACKAGE", "TRANSFER", "TRANSFER", "AVAILABLE", "O", "AVAILABLE", unit)
  }

  const SPLIT_ACTION := Action("X", "SPLIT", "I", "PROPOSED", "", 1, [SOURCE], TARGETS, PAIR, 2, Digest(PAIR), 1, 0,
                               Some(map["A" := ["1"], "B" := ["2"]]), [Row("1"), Row("2")])

  const ANSWER := Answer("S", "transfer", Scan("OVERLAY_ACTIVE", "L", "L", false, Some(QR)),
                         Reconciliation("R", "PROPOSED", 1, "D"), Selection("R", 1, "SINGLE_TOPOLOGY", ["X"]), [SPLIT_ACTION])

  lemma CleanStrips(s: string)
    requires Clean(s)
    ensures Strip(s) == s
  {
    StripCleans(s);
  }

  lemma Loud(s: string)
    requires Clean(s) && forall i | 0 <= i < |s| :: !('a' <= s[i] <= 'z')
    ensures Keyword(s) == s
  {
    StripCleans(s);
    assert Upper(s) == s;
  }

  lemma OneIsCanonical(m: string)
    requires Clean(m) && m != ""
    ensures Canonical([m]) == Some([m])
  {
    assert IsCanonical([m]);
    CanonicalIsFixed([m]);
  }

  lemma PairIsCanonical()
    ensures IsCanonical(PAIR) && Canonical(PAIR) == Some(PAIR)
  {
    assert Below("1", "2") && !Below("2", "1");
    assert PAIR[0] != PAIR[1];
    assert !KeyBelow(MemberKey("2"), MemberKey("1"));
    CanonicalIsFixed(PAIR);
  }

  lemma Letters()
    ensures Strip("L") == "L" && Strip("I") == "I" && Strip("G") == "G" && Strip("N") == "N" && Strip("D") == "D"
    ensures Strip("C") == "C" && Strip("W") == "W" && Strip("A") == "A" && Strip("B") == "B" && Strip("X") == "X"
  {
  }

  lemma OneSource(s: Source, itemId: string)
    requires NormalSource(s, itemId) == Some(s)
    ensures NormalSources([s], itemId) == Some([s]) && Flatten(MembersOf([s])) == s.members
  {
    assert [s][1..] == [] && [s] + [] == [s];
    assert MembersOf([s]) == [s.members] && [s.members][1..] == [];
  }

  lemma OneAction(a: Action)
    requires NormalAction(a) == Some(a)
    ensures NormalActions([a]) == Some([a])
  {
    assert [a][..0] == [] && [] + [a] == [a];
  }

  lemma SourceIsNormal()
    ensures NormalSources([SOURCE], "I") == Some([SOURCE])
    ensures Canonical(Flatten(MembersOf([SOURCE]))) == Some(PAIR)
  {
    PairIsCanonical();
    Letters();
    OneSource(SOURCE, "I");
  }

  lemma SplitIsNormal()
    ensures NormalTopology(SplitLabel, [SOURCE], TARGETS, SPLIT_ACTION.split, PAIR) == Some(SPLIT_ACTION.split)
  {
    var split := SPLIT_ACTION.split.value;
    OneIsCanonical("1");
    OneIsCanonical("2");
    assert "A" != "B";
    assert split["A"] == ["1"] && split["B"] == ["2"];
    var parts := [["1"], ["2"]];
    SplitPartsFrom(split, TARGETS, parts);
    assert parts[1..] == [["2"]] && [["2"]][1..] == [];
    assert Flatten(parts) == PAIR;
    PairIsCanonical();
    assert TARGETS[..1] == [TARGETS[0]] && parts[..1] == [["1"]] && TARGETS[..1][..0] == [];
    assert NormalSplit(TARGETS[..1], parts[..1]) == map["A" := ["1"]];
    assert NormalSplit(TARGETS, parts) == split;
    assert TARGETS[1..] == [TARGETS[1]] && TARGETS[1..][1..] == [];
    assert TargetQty(TARGETS) == 2;
  }

  lemma ProcessIsOk()
    ensures ProcessOk(SPLIT_ACTION.process, PAIR)
  {
    PairIsCanonical();
    CleanStrips("PACKAGE");
    CleanStrips("TRANSFER");
    CleanStrips("AVAILABLE");
    assert UnitIds(SPLIT_ACTION.process) == PAIR;
  }

  lemma FieldsAreOk()
    ensures ActionFieldsOk(SPLIT_ACTION, PAIR)
    ensures forall i | 0 <= i < |TARGETS| :: TargetOk(TARGETS[i], "I")
  {
    Letters();
    PairIsCanonical();
    Loud("PROPOSED");
  }

  lemma KeywordsAreNormal()
    ensures Keyword("SPLIT") == "SPLIT" && Keyword("PROPOSED") == "PROPOSED" && KindOf("SPLIT") == SplitLabel
    ensures Strip("I") == "I" && Strip("") == ""
  {
    Loud("SPLIT");
    Loud("PROPOSED");
    Letters();
    assert "SPLIT"[0] != "EXCHANGE_DATE"[0];
  }

  lemma ActionIsNormal()
    ensures NormalAction(SPLIT_ACTION) == Some(SPLIT_ACTION)
  {
    SourceIsNormal();
    SplitIsNormal();
    ProcessIsOk();
    FieldsAreOk();
    KeywordsAreNormal();
    PartsMakeNormal(SPLIT_ACTION);
  }

  lemma OneActionLists(a: Action)
    ensures SourceLabels([a]) == Labels(a.sources) && TargetInstructions([a]) == Instructions(a.targets) && AllMembers([a]) == a.memberIds
  {
    assert [a][..0] == [];
    assert SourceLabels([]) == [] && TargetInstructions([]) == [] && AllMembers([]) == [];
  }

  lemma OneStandsApart(a: Action, active: string, date: string)
    requires Distinct(Labels(a.sources)) && Distinct(Instructions(a.targets)) && Distinct(a.memberIds)
    requires active in Labels(a.sources) && date != "" && forall k | 0 <= k < |a.sources| :: Strip(a.sources[k].businessDate) == date
    ensures ActionsApart([a], active, date)
  {
    OneActionLists(a);
  }

  lemma TargetsAreDistinct()
    ensures Distinct(Instructions(TARGETS)) && Distinct(PAIR)
  {
    assert "A"[0] != "B"[0] && "1"[0] != "2"[0];
  }

  lemma ActionStandsApart()
    ensures ActionsApart([SPLIT_ACTION], "L", "D")
  {
    Letters();
    TargetsAreDistinct();
    assert Labels([SOURCE])[0] == "L";
    OneStandsApart(SPLIT_ACTION, "L", "D");
  }

  lemma SelectionIsOk()
    ensures SelectionOk(ANSWER, [SPLIT_ACTION])
  {
    ActionStandsApart();
    Letters();
    Loud("SINGLE_TOPOLOGY");
    assert [SPLIT_ACTION][0].actionType == "SPLIT" && "SPLIT"[0] != "EXCHANGE_DATE"[0];
    assert StripIds(["X"]) == ActionIds([SPLIT_ACTION]);
  }

  lemma HeaderIsOk()
    ensures HeaderOk(ANSWER, "S", Some(QR))
  {
    CleanStrips("transfer");
    assert Lower("transfer") == "transfer";
    Loud("OVERLAY_ACTIVE");
    Loud("PROPOSED");
  }

  lemma ActionsAreNormal()
    ensures NormalActions([SPLIT_ACTION]) == Some([SPLIT_ACTION])
  {
    ActionIsNormal();
    OneAction(SPLIT_ACTION);
  }

  // The split is accepted, unchanged, and its journal can be recovered.
  lemma SplitIsAccepted()
    ensures Validate(ANSWER, "S", Some(QR)).Some?
    ensures Validate(ANSWER, "S", Some(QR)).value.answer == ANSWER
    ensures RecoveryAccepts(Validate(ANSWER, "S", Some(QR)).value)
  {
    HeaderIsOk();
    ActionsAreNormal();
    SelectionIsOk();
    CleanStrips("S");
    RecoveryAcceptsExactly(ANSWER, "S", Some(QR));
  }
}
