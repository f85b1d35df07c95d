// The reconciliation topology a server proposes: its validation and
// normalisation, and the target memberships and edges the client expects.
//
// Malformed JSON shapes are refused before this point; a number that does not
// parse is a number below one.
module Topology {
  import opened Common
  import opened Ordering
  import opened Members

  datatype Qr = Qr(labelId: string, item: string, inputTag: string, hash: string)

  datatype Source = Source(
    labelId: string, itemId: string, members: seq<string>, qty: int, hash: Digest, qr: Option<Qr>,
    groupId: string, instructionId: string, businessDate: string, displayCode: string, workerCode: string,
    ordinal: int, labelVersion: int, membershipVersion: int)

  datatype Target = Target(
    instructionId: string, businessDate: string, itemId: string, displayCode: string, workerCode: string,
    ordinal: int, qty: int)

  datatype ProcessRow = ProcessRow(
    ownerType: string, bundleType: string, location: string, unitState: string,
    ownerId: string, bundleState: string, unitId: string)

  datatype Action = Action(
    actionId: string, actionType: string, itemId: string, state: string, exchangeId: string, index: int,
    sources: seq<Source>, targets: seq<Target>, memberIds: seq<string>, unionCount: int, unionHash: Digest,
    beforeQty: int, afterQty: int, split: Option<map<string, seq<string>>>, process: seq<ProcessRow>)

  datatype Kind = ExchangeDate | SplitLabel | MergeLabels | UnknownKind

  function KindOf(actionType: string): Kind {
    if actionType == "EXCHANGE_DATE" then ExchangeDate
    else if actionType == "SPLIT" then SplitLabel
    else if actionType == "MERGE" then MergeLabels
    else UnknownKind
  }

  predicate Present(s: string) { Strip(s) != "" }

  // ------------------------------------------------------------ one action

  function NormalSource(s: Source, itemId: string): Option<Source> {
    var members := Canonical(s.members);
    if members.Some? && s.qr.Some? && s.qty >= 1
       && Present(s.labelId) && Strip(s.labelId) == s.qr.value.labelId
       && Strip(s.itemId) == itemId && s.qr.value.item == itemId
       && |members.value| == s.qty && s.hash == Digest(members.value)
       && Present(s.groupId) && Present(s.instructionId) && Present(s.businessDate)
       && Present(s.displayCode) && Present(s.workerCode)
       && s.ordinal >= 1 && s.labelVersion >= 1 && s.membershipVersion >= 1
    then Some(s.(members := members.value)) else None
  }

  function NormalSources(ss: seq<Source>, itemId: string): Option<seq<Source>> {
    if ss == [] then Some([])
    else
      var first, rest := NormalSource(ss[0], itemId), NormalSources(ss[1..], itemId);
      if first.Some? && rest.Some? then Some([first.value] + rest.value) else None
  }

  predicate TargetOk(t: Target, itemId: string) {
    && Present(t.instructionId) && Present(t.businessDate) && Strip(t.itemId) == itemId
    && Present(t.displayCode) && Present(t.workerCode) && t.ordinal >= 1 && t.qty >= 1
  }

  function MembersOf(ss: seq<Source>): (r: seq<seq<string>>)
    ensures |r| == |ss|
    ensures forall i | 0 <= i < |ss| :: r[i] == ss[i].members
  {
    seq(|ss|, i requires 0 <= i < |ss| => ss[i].members)
  }

  function SourceQty(ss: seq<Source>): int {
    if ss == [] then 0 else ss[0].qty + SourceQty(ss[1..])
  }

  function TargetQty(ts: seq<Target>): int {
    if ts == [] then 0 else ts[0].qty + TargetQty(ts[1..])
  }

  // The members a split gives to one target; a missing key is an empty list.
  function SplitPart(split: map<string, seq<string>>, t: Target): Option<seq<string>> {
    var part := Canonical(if t.instructionId in split then split[t.instructionId] else []);
    if part.Some? && |part.value| == t.qty then part else None
  }

  function SplitParts(split: map<string, seq<string>>, ts: seq<Target>): Option<seq<seq<string>>> {
    if ts == [] then Some([])
    else
      var first, rest := SplitPart(split, ts[0]), SplitParts(split, ts[1..]);
      if first.Some? && rest.Some? then Some([first.value] + rest.value) else None
  }

  // The split restricted to the targets, each part canonical.
  function NormalSplit(ts: seq<Target>, parts: seq<seq<string>>): map<string, seq<string>>
    requires |ts| == |parts|
  {
    if ts == [] then map[]
    else NormalSplit(ts[..|ts| - 1], parts[..|ts| - 1])[ts[|ts| - 1].instructionId := parts[|ts| - 1]]
  }

  predicate NoSplit(split: Option<map<string, seq<string>>>) {
    split.None? || split.value == map[]
  }

  // The normal form of the split field, or nothing when the topology is wrong.
  function NormalTopology(kind: Kind, ss: seq<Source>, ts: seq<Target>, split: Option<map<string, seq<string>>>, union: seq<string>)
    : Option<Option<map<string, seq<string>>>>
  {
    match kind
    case ExchangeDate =>
      if |ss| == 1 && |ts| == 1 && ss[0].qty == ts[0].qty && NoSplit(split) then Some(split) else None
    case MergeLabels =>
      if |ss| >= 2 && |ts| == 1 && SourceQty(ss) == ts[0].qty && NoSplit(split) then Some(split) else None
    case SplitLabel =>
      if |ss| == 1 && |ts| >= 2 && split.Some? && TargetQty(ts) == ss[0].qty then
        var parts := SplitParts(split.value, ts);
        if parts.Some? && |parts.value| == |ts| && Canonical(Flatten(parts.value)) == Some(union)
        then Some(Some(NormalSplit(ts, parts.value))) else None
      else None
    case UnknownKind => None
  }

  predicate TransferSignature(p: ProcessRow) {
    var s := (Strip(p.ownerType), Strip(p.bundleType), Strip(p.location), Strip(p.unitState));
    s in {("PACKAGE", "PHS", "PHS_GOOD", "AVAILABLE"), ("PACKAGE", "PHS", "PHS_GOOD", "CONSUMED"),
          ("RESIDUAL", "RESIDUAL", "INSPECTION_RESIDUAL", "AVAILABLE"), ("PACKAGE", "TRANSFER", "TRANSFER", "AVAILABLE")}
  }

  function UnitIds(rows: seq<ProcessRow>): seq<string> {
    seq(|rows|, i requires 0 <= i < |rows| => Strip(rows[i].unitId))
  }

  predicate ProcessOk(rows: seq<ProcessRow>, union: seq<string>) {
    && |rows| == |union|
    && (forall i | 0 <= i < |rows| :: TransferSignature(rows[i]) && Present(rows[i].ownerId) && Strip(rows[i].bundleState) == "AVAILABLE")
    && Canonical(UnitIds(rows)) == Some(union)
  }

  predicate ActionFieldsOk(a: Action, union: seq<string>) {
    var state, link := Keyword(a.state), Strip(a.exchangeId);
    && Present(a.actionId) && Present(a.itemId)
    && (state == "PROPOSED" || state == "APPROVED")
    && (state == "PROPOSED" ==> link == "") && (state == "APPROVED" ==> link != "")
    && a.index >= 1 && a.unionCount == |union| && a.unionCount >= 1 && a.unionHash == Digest(union)
    && Canonical(a.memberIds) == Some(union)
    && 1 <= a.beforeQty <= |union| && a.afterQty == 0
  }

  function NormalAction(a: Action): Option<Action> {
    var itemId := Strip(a.itemId);
    var sources := NormalSources(a.sources, itemId);
    if sources.None? || (exists i | 0 <= i < |a.targets| :: !TargetOk(a.targets[i], itemId)) then None
    else
      var union := Canonical(Flatten(MembersOf(sources.value)));
      if union.None? || !ActionFieldsOk(a, union.value) then None
      else
        var actionType := Keyword(a.actionType);
        var split := NormalTopology(KindOf(actionType), sources.value, a.targets, a.split, union.value);
        if split.None? || !ProcessOk(a.process, union.value) then None
        else Some(a.(actionType := actionType, state := Keyword(a.state), exchangeId := Strip(a.exchangeId),
                     sources := sources.value, memberIds := union.value, unionCount := |union.value|,
                     unionHash := Digest(union.value), split := split.value))
  }

  // ------------------------------------------------------------ the whole answer

  datatype Scan = Scan(resolution: string, scannedLabel: string, activeLabel: string, replacementRequired: bool, activeQr: Option<Qr>)

  datatype Reconciliation = Reconciliation(id: string, state: string, version: int, businessDate: string)

  datatype Selection = Selection(reconciliationId: string, expectedVersion: int, mode: string, actionIds: seq<string>)

  datatype Answer = Answer(
    scopeId: string, processContext: string, scan: Scan, reconciliation: Reconciliation, selection: Selection,
    actions: seq<Action>)

  datatype ExchangeKind = SingleKind | BatchKind | SplitKind | MergeKind

  // An injective digest of the validated topology.
  datatype TopologyHash = TopologyHash(
    scopeId: string, processContext: string, scan: Scan, reconciliation: Reconciliation, selection: Selection,
    actions: seq<Action>, kind: ExchangeKind)

  // The accepted answer, with its normalised actions and the derived fields.
  datatype Context = Context(answer: Answer, kind: ExchangeKind, union: Digest, unionCount: nat,
                             linkedExchange: string, hash: TopologyHash)

  function NormalActions(actions: seq<Action>): Option<seq<Action>> {
    if actions == [] then Some([])
    else
      var rest, last := NormalActions(actions[..|actions| - 1]), NormalAction(actions[|actions| - 1]);
      if rest.Some? && last.Some? then Some(rest.value + [last.value]) else None
  }

  function ActionIds(actions: seq<Action>): (r: seq<string>)
    ensures |r| == |actions|
  {
    seq(|actions|, i requires 0 <= i < |actions| => Strip(actions[i].actionId))
  }

  function SourceLabels(actions: seq<Action>): seq<string> {
    if actions == [] then []
    else SourceLabels(actions[..|actions| - 1]) + Labels(actions[|actions| - 1].sources)
  }

  function Labels(ss: seq<Source>): (r: seq<string>)
    ensures |r| == |ss|
    ensures forall i | 0 <= i < |ss| :: r[i] == ss[i].labelId
  {
    seq(|ss|, i requires 0 <= i < |ss| => ss[i].labelId)
  }

  function Instructions(ts: seq<Target>): (r: seq<string>)
    ensures |r| == |ts|
    ensures forall i | 0 <= i < |ts| :: r[i] == ts[i].instructionId
  {
    seq(|ts|, i requires 0 <= i < |ts| => ts[i].instructionId)
  }

  function TargetInstructions(actions: seq<Action>): seq<string> {
    if actions == [] then []
    else TargetInstructions(actions[..|actions| - 1]) + Instructions(actions[|actions| - 1].targets)
  }

  function AllMembers(actions: seq<Action>): seq<string> {
    if actions == [] then []
    else AllMembers(actions[..|actions| - 1]) + actions[|actions| - 1].memberIds
  }

  predicate Increasing(actions: seq<Action>) {
    forall i, j | 0 <= i < j < |actions| :: actions[i].index < actions[j].index
  }

  predicate DatesAgree(actions: seq<Action>, date: string) {
    forall i, k | 0 <= i < |actions| && 0 <= k < |actions[i].sources| :: Strip(actions[i].sources[k].businessDate) == date
  }

  predicate ActionsApart(actions: seq<Action>, activeLabel: string, date: string) {
    && Distinct(ActionIds(actions)) && Increasing(actions)
    && Distinct(SourceLabels(actions)) && Distinct(TargetInstructions(actions)) && Distinct(AllMembers(actions))
    && activeLabel in SourceLabels(actions) && date != "" && DatesAgree(actions, date)
  }

  // Either no action is linked yet, or all are linked to one exchange.
  predicate LinksAgree(actions: seq<Action>) {
    || (forall i | 0 <= i < |actions| :: actions[i].exchangeId == "" && actions[i].state == "PROPOSED")
    || (forall i | 0 <= i < |actions| ::
          actions[i].exchangeId != "" && actions[i].exchangeId == actions[0].exchangeId && actions[i].state == "APPROVED")
  }

  function StripIds(ids: seq<string>): seq<string> {
    seq(|ids|, i requires 0 <= i < |ids| => Strip(ids[i]))
  }

  function ExchangeKindOf(actions: seq<Action>, mode: string): Option<ExchangeKind> {
    if forall i | 0 <= i < |actions| :: actions[i].actionType == "EXCHANGE_DATE" then
      if |actions| == 1 then (if mode == "SINGLE_EXCHANGE_DATE" then Some(SingleKind) else None)
      else if mode == "MULTI_EXCHANGE_DATE" then Some(BatchKind) else None
    else if |actions| == 1 && mode == "SINGLE_TOPOLOGY" then
      (if actions[0].actionType == "SPLIT" then Some(SplitKind)
       else if actions[0].actionType == "MERGE" then Some(MergeKind) else None)
    else None
  }

  predicate ScanOk(scan: Scan, scanned: Option<Qr>) {
    && scan.activeQr.Some? && scanned.Some?
    && Keyword(scan.resolution) in {"OVERLAY_ACTIVE", "OVERLAY_REPLACED"}
    && Strip(scan.scannedLabel) == scanned.value.labelId && Strip(scan.activeLabel) == scan.activeQr.value.labelId
    && scan.replacementRequired == (Strip(scan.scannedLabel) != Strip(scan.activeLabel))
    && (!scan.replacementRequired ==> scanned == scan.activeQr)
  }

  predicate HeaderOk(r: Answer, scopeId: string, scanned: Option<Qr>) {
    && Strip(r.scopeId) == scopeId && Lower(Strip(r.processContext)) == "transfer" && 1 <= |r.actions| <= 20
    && ScanOk(r.scan, scanned)
    && r.reconciliation.version >= 1 && Present(r.reconciliation.id)
    && Keyword(r.reconciliation.state) in {"PROPOSED", "APPROVED"}
    && Strip(r.selection.reconciliationId) == Strip(r.reconciliation.id)
    && r.selection.expectedVersion == r.reconciliation.version
  }

  predicate SelectionOk(r: Answer, actions: seq<Action>) {
    && ActionsApart(actions, Strip(r.scan.activeLabel), Strip(r.reconciliation.businessDate))
    && LinksAgree(actions)
    && StripIds(r.selection.actionIds) == ActionIds(actions)
    && ExchangeKindOf(actions, Keyword(r.selection.mode)).Some?
  }

  function Accepted(r: Answer, scopeId: string, actions: seq<Action>, kind: ExchangeKind): Context {
    Context(r.(actions := actions), kind,
            Digest(SortBy(AllMembers(actions), MemberKey)), |AllMembers(actions)|,
            if actions == [] then "" else actions[0].exchangeId,
            TopologyHash(scopeId, "transfer", r.scan, r.reconciliation, r.selection, actions, kind))
  }

  // `scanned` is the parsed QR text of the label the worker scanned.
  function Validate(r: Answer, scopeId: string, scanned: Option<Qr>): Option<Context> {
    if !HeaderOk(r, scopeId, scanned) then None
    else
      var actions := NormalActions(r.actions);
      if actions.None? || !SelectionOk(r, actions.value) then None
      else Some(Accepted(r, scopeId, actions.value, ExchangeKindOf(actions.value, Keyword(r.selection.mode)).value))
  }

  lemma NormalStep(actions: seq<Action>, n: nat)
    requires n < |actions| && NormalActions(actions[..n]).Some?
    ensures NormalActions(actions[..n + 1]) ==
            (if NormalAction(actions[n]).Some?
             then Some(NormalActions(actions[..n]).value + [NormalAction(actions[n]).value]) else None)
  {
    assert actions[..n + 1][..n] == actions[..n];
  }

  lemma {:induction false} RefusedPrefix(actions: seq<Action>, n: nat)
    requires n <= |actions| && NormalActions(actions[..n]).None?
    ensures NormalActions(actions).None?
    decreases |actions| - n
  {
    if n < |actions| {
      assert actions[..n + 1][..n] == actions[..n];
      RefusedPrefix(actions, n + 1);
    } else {
      assert actions[..n] == actions;
    }
  }

  // The loop that accumulates the normalised actions and stops at the first
  // refused one.
  method NormaliseActions(actions: seq<Action>) returns (normal: Option<seq<Action>>)
    ensures normal == NormalActions(actions)
  {
    var done: seq<Action> := [];
    var i := 0;
    while i < |actions|
      invariant i <= |actions|
      invariant NormalActions(actions[..i]) == Some(done)
    {
      NormalStep(actions, i);
      var action := NormalAction(actions[i]);
      if action.None? {
        RefusedPrefix(actions, i + 1);
        return None;
      }
      done := done + [action.value];
      i := i + 1;
    }
    assert actions[..i] == actions;
    return Some(done);
  }

  method ValidateResolution(r: Answer, scopeId: string, scanned: Option<Qr>) returns (context: Option<Context>)
    ensures context == Validate(r, scopeId, scanned)
  {
    if !HeaderOk(r, scopeId, scanned) {
      return None;
    }
    var actions := NormaliseActions(r.actions);
    if actions.None? || !SelectionOk(r, actions.value) {
      return None;
    }
    return Some(Accepted(r, scopeId, actions.value, ExchangeKindOf(actions.value, Keyword(r.selection.mode)).value));
  }
}
