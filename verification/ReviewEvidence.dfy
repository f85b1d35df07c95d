// The reconciliation evidence an operator presents to acknowledge a committed
// review: every quarantined row must be proved by its own, distinct evidence.
module ReviewEvidence {
  import opened Common

  datatype Resolution = HistoricalLocalOnly | HistoricalSuperseded | ServerReplayed

  datatype Event = Event(
    id: int, identity: string, rawName: string, projectionStatus: string, projectionClass: string,
    rawOnlyReason: string, actorId: string, eventTime: string, payloadHash: string, rowHash: string)

  datatype EventField = NoEvent | NotAnObject | Object(event: Event)

  datatype QuarantineRow = QuarantineRow(
    id: Option<int>, identity: string, eventName: string, observedAt: string, localOnly: bool,
    reason: string, validationStatus: string, codes: Option<seq<string>>,
    existingIdentity: string, legacyFingerprint: string, existing: EventField, resolved: EventField)

  predicate Digits(s: string) {
    forall i | 0 <= i < |s| :: '0' <= s[i] <= '9'
  }

  predicate Hex(c: char) {
    '0' <= c <= '9' || 'a' <= c <= 'f' || 'A' <= c <= 'F'
  }

  predicate Sha256Text(s: string) {
    |s| == 64 && forall i | 0 <= i < |s| :: Hex(s[i])
  }

  function RemovePrefix(s: string, prefix: string): string {
    if prefix <= s then s[|prefix|..] else s
  }

  // ":" row number ":" part number, the row number without leading zeros.
  predicate IdentitySuffix(s: string) {
    && |s| >= 4 && s[0] == ':' && '1' <= s[1] <= '9'
    && exists k | 2 <= k < |s| - 1 :: s[k] == ':' && Digits(s[1..k]) && Digits(s[k + 1..])
  }

  predicate ManifestDenial(r: QuarantineRow) {
    && r.reason == "MANIFEST_EVENT_VALIDATION_FAILED"
    && r.validationStatus == "DENY"
    && r.codes.Some? && "DISPATCH_KEY_NOT_IN_MANIFEST" in r.codes.value
  }

  predicate RowIdentified(r: QuarantineRow, sourceFileId: string) {
    && r.id.Some? && r.id.value > 0
    && IdentitySuffix(RemovePrefix(r.identity, sourceFileId))
    && r.eventName != "" && r.observedAt != ""
  }

  predicate LocalOnlyProof(r: QuarantineRow, resolution: Resolution) {
    && r.eventName == "RANDOM_TEST_SESSION_START"
    && ManifestDenial(r)
    && r.existing.NoEvent? && r.resolved.NoEvent?
    && !resolution.ServerReplayed?
  }

  predicate ReplayedProof(r: QuarantineRow) {
    && ManifestDenial(r)
    && r.resolved.Object?
    && r.resolved.event.id > 0
    && r.resolved.event.identity == r.identity
    && r.resolved.event.rawName == r.eventName
    && r.resolved.event.projectionStatus in {"PROJECTED", "NOT_PROJECTED"}
    && r.resolved.event.projectionClass != ""
    && (r.resolved.event.projectionStatus == "NOT_PROJECTED" ==> r.resolved.event.rawOnlyReason != "")
  }

  predicate SupersededProof(r: QuarantineRow, sourceFileId: string) {
    && r.reason == "LEGACY_REPLAY_CONFLICT"
    && Sha256Text(r.legacyFingerprint)
    && r.existing.Object?
    && r.existing.event.id > 0
    && r.existingIdentity == r.existing.event.identity
    && r.existingIdentity != r.identity
    && IdentitySuffix(RemovePrefix(r.existingIdentity, sourceFileId))
    && r.existing.event.rawName == r.eventName
    && r.existing.event.actorId != "" && r.existing.event.eventTime != ""
    && Sha256Text(r.existing.event.payloadHash) && Sha256Text(r.existing.event.rowHash)
  }

  // The parts of ":" row ":" part.
  ghost predicate SuffixOf(s: string, row: string, part: string) {
    && s == ":" + row + ":" + part && row != "" && part != ""
    && '1' <= row[0] <= '9' && (forall i | 0 <= i < |row| :: '0' <= row[i] <= '9') && (forall i | 0 <= i < |part| :: '0' <= part[i] <= '9')
  }

  ghost predicate IsSuffix(s: string) {
    exists row, part :: SuffixOf(s, row, part)
  }

  lemma SuffixParts(s: string, k: nat)
    requires 2 <= k < |s| - 1 && s[0] == ':' && '1' <= s[1] <= '9' && s[k] == ':' && Digits(s[1..k]) && Digits(s[k + 1..])
    ensures SuffixOf(s, s[1..k], s[k + 1..])
  {
    assert s == [s[0]] + s[1..k] + [s[k]] + s[k + 1..];
  }

  lemma SuffixJoins(s: string, row: string, part: string)
    requires SuffixOf(s, row, part)
    ensures IdentitySuffix(s)
  {
    var k := |row| + 1;
    assert s[1..k] == row && s[k + 1..] == part && s[k] == ':';
  }

  // An event identity's suffix is a row number without leading zeros and a part number.
  lemma SuffixExactly(s: string)
    ensures IdentitySuffix(s) <==> IsSuffix(s)
  {
    if IdentitySuffix(s) {
      var k :| 2 <= k < |s| - 1 && s[k] == ':' && Digits(s[1..k]) && Digits(s[k + 1..]);
      SuffixParts(s, k);
    } else if IsSuffix(s) {
      var row, part :| SuffixOf(s, row, part);
      SuffixJoins(s, row, part);
    }
  }

  // What one accepted row proves: its quarantine id, the event identity it
  // stands for and, unless it is local-only, the server event resolving it.
  datatype Proof = Proof(id: int, identity: string, event: Option<int>)

  function ProofOf(r: QuarantineRow, resolution: Resolution, sourceFileId: string): Option<Proof> {
    if !RowIdentified(r, sourceFileId) then None
    else if r.localOnly then
      if LocalOnlyProof(r, resolution) then Some(Proof(r.id.value, r.identity, None)) else None
    else if resolution.ServerReplayed? && ReplayedProof(r) then
      Some(Proof(r.id.value, r.identity, Some(r.resolved.event.id)))
    else if resolution.HistoricalSuperseded? && SupersededProof(r, sourceFileId) then
      Some(Proof(r.id.value, r.identity, Some(r.existing.event.id)))
    else None
  }

  // The event identity of a row and part, with the source file in front or not.
  ghost predicate IdentityOf(identity: string, sourceFileId: string) {
    IsSuffix(if sourceFileId <= identity then identity[|sourceFileId|..] else identity)
  }

  predicate HexDigest(s: string) {
    |s| == 64 && forall i | 0 <= i < 64 :: s[i] in "0123456789abcdefABCDEF"
  }

  predicate Denied(r: QuarantineRow) {
    && r.reason == "MANIFEST_EVENT_VALIDATION_FAILED" && r.validationStatus == "DENY"
    && r.codes != None && "DISPATCH_KEY_NOT_IN_MANIFEST" in r.codes.value
  }

  // The server's own event for the row, projected or with a reason why not.
  predicate ReplayedAs(r: QuarantineRow, e: Event) {
    && Denied(r) && e.id > 0 && e.identity == r.identity && e.rawName == r.eventName && e.projectionClass != ""
    && (e.projectionStatus == "PROJECTED" || (e.projectionStatus == "NOT_PROJECTED" && e.rawOnlyReason != ""))
  }

  // Another row's event of the same name, with its actor, time and digests.
  ghost predicate SupersededBy(r: QuarantineRow, e: Event, sourceFileId: string) {
    && r.reason == "LEGACY_REPLAY_CONFLICT" && HexDigest(r.legacyFingerprint)
    && e.id > 0 && e.identity == r.existingIdentity && e.identity != r.identity && IdentityOf(e.identity, sourceFileId)
    && e.rawName == r.eventName && e.actorId != "" && e.eventTime != "" && HexDigest(e.payloadHash) && HexDigest(e.rowHash)
  }

  lemma DigestExactly(s: string)
    ensures Sha256Text(s) <==> HexDigest(s)
  {
    forall c: char
      ensures Hex(c) <==> c in "0123456789abcdefABCDEF"
    {
      HexExactly(c);
    }
  }

  lemma HexExactly(c: char)
    ensures Hex(c) <==> c in "0123456789abcdefABCDEF"
  {
  }

  lemma IdentityExactly(identity: string, sourceFileId: string)
    ensures IdentitySuffix(RemovePrefix(identity, sourceFileId)) <==> IdentityOf(identity, sourceFileId)
  {
    SuffixExactly(RemovePrefix(identity, sourceFileId));
  }

  predicate LocalStart(r: QuarantineRow, resolution: Resolution) {
    && r.eventName == "RANDOM_TEST_SESSION_START" && Denied(r) && r.existing == NoEvent && r.resolved == NoEvent
    && (resolution == HistoricalLocalOnly || resolution == HistoricalSuperseded)
  }

  lemma ReasonsExactly(r: QuarantineRow, resolution: Resolution)
    ensures LocalOnlyProof(r, resolution) <==> LocalStart(r, resolution)
    ensures ReplayedProof(r) <==> r.resolved.Object? && ReplayedAs(r, r.resolved.event)
  {
  }

  lemma SupersededExactly(r: QuarantineRow, sourceFileId: string)
    ensures SupersededProof(r, sourceFileId) <==> r.existing.Object? && SupersededBy(r, r.existing.event, sourceFileId)
  {
    IdentityExactly(r.existingIdentity, sourceFileId);
    DigestExactly(r.legacyFingerprint);
    if r.existing.Object? {
      DigestExactly(r.existing.event.payloadHash);
      DigestExactly(r.existing.event.rowHash);
    }
  }

  // A row is proved exactly when it is identified and either is a local-only test start
  // the manifest denied, in a historical resolution, or has the event its resolution
  // asks for.
  lemma ProofExactly(r: QuarantineRow, resolution: Resolution, sourceFileId: string)
    ensures ProofOf(r, resolution, sourceFileId).Some? <==>
            && r.id.Some? && r.id.value > 0 && IdentityOf(r.identity, sourceFileId) && r.eventName != "" && r.observedAt != ""
            && (if r.localOnly then LocalStart(r, resolution)
                else || (resolution == ServerReplayed && r.resolved.Object? && ReplayedAs(r, r.resolved.event))
                     || (resolution == HistoricalSuperseded && r.existing.Object? && SupersededBy(r, r.existing.event, sourceFileId)))
    ensures ProofOf(r, resolution, sourceFileId).Some? ==>
              ProofOf(r, resolution, sourceFileId).value ==
              Proof(r.id.value, r.identity,
                    if r.localOnly then None else Some(if resolution == ServerReplayed then r.resolved.event.id else r.existing.event.id))
  {
    IdentityExactly(r.identity, sourceFileId);
    ReasonsExactly(r, resolution);
    SupersededExactly(r, sourceFileId);
  }

  ghost function ProofsOf(rows: seq<QuarantineRow>, resolution: Resolution, sourceFileId: string): (proofs: seq<Option<Proof>>)
    ensures |proofs| == |rows|
    ensures forall i | 0 <= i < |rows| :: proofs[i] == ProofOf(rows[i], resolution, sourceFileId)
  {
    if rows == [] then []
    else ProofsOf(rows[..|rows| - 1], resolution, sourceFileId) + [ProofOf(rows[|rows| - 1], resolution, sourceFileId)]
  }

  ghost predicate Repeats(a: Proof, b: Proof) {
    a.id == b.id || a.identity == b.identity || (a.event.Some? && a.event == b.event)
  }

  // Every row proves something, and no two rows share an id, an identity or a
  // resolving event.
  ghost predicate AllDistinct(proofs: seq<Option<Proof>>) {
    && (forall i | 0 <= i < |proofs| :: proofs[i].Some?)
    && (forall i, j | 0 <= i < j < |proofs| :: !Repeats(proofs[i].value, proofs[j].value))
  }

  ghost predicate EvidenceProves(rows: seq<QuarantineRow>, resolution: Resolution, sourceFileId: string) {
    rows != [] && AllDistinct(ProofsOf(rows, resolution, sourceFileId))
  }

  // ------------------------------------------------- what a prefix of rows proved

  function Ids(proofs: seq<Option<Proof>>): set<int> {
    if proofs == [] || proofs[|proofs| - 1].None? then {}
    else Ids(proofs[..|proofs| - 1]) + {proofs[|proofs| - 1].value.id}
  }

  function Identities(proofs: seq<Option<Proof>>): set<string> {
    if proofs == [] || proofs[|proofs| - 1].None? then {}
    else Identities(proofs[..|proofs| - 1]) + {proofs[|proofs| - 1].value.identity}
  }

  function EventOf(p: Proof): set<int> {
    if p.event.Some? then {p.event.value} else {}
  }

  function ResolvingEvents(proofs: seq<Option<Proof>>): set<int> {
    if proofs == [] || proofs[|proofs| - 1].None? then {}
    else ResolvingEvents(proofs[..|proofs| - 1]) + EventOf(proofs[|proofs| - 1].value)
  }

  function LocalOnlyCount(proofs: seq<Option<Proof>>): nat {
    if proofs == [] then 0
    else LocalOnlyCount(proofs[..|proofs| - 1])
         + (if proofs[|proofs| - 1].Some? && proofs[|proofs| - 1].value.event.None? then 1 else 0)
  }

  ghost predicate Clashes(proofs: seq<Option<Proof>>, p: Proof) {
    p.id in Ids(proofs) || p.identity in Identities(proofs) || (p.event.Some? && p.event.value in ResolvingEvents(proofs))
  }

  // A value was collected exactly when some row proved it.
  lemma {:induction false} ClashesIsRepeat(proofs: seq<Option<Proof>>, p: Proof)
    requires forall i | 0 <= i < |proofs| :: proofs[i].Some?
    ensures Clashes(proofs, p) <==> exists i :: 0 <= i < |proofs| && Repeats(proofs[i].value, p)
  {
    if proofs != [] {
      var n := |proofs| - 1;
      var init := proofs[..n];
      ClashesIsRepeat(init, p);
      assert forall i | 0 <= i < n :: init[i] == proofs[i];
      assert Clashes(proofs, p) <==> Clashes(init, p) || Repeats(proofs[n].value, p);
    }
  }

  lemma DistinctExtends(proofs: seq<Option<Proof>>, n: nat)
    requires n < |proofs| && AllDistinct(proofs[..n]) && proofs[n].Some?
    ensures AllDistinct(proofs[..n + 1]) <==> !Clashes(proofs[..n], proofs[n].value)
    ensures Ids(proofs[..n + 1]) == Ids(proofs[..n]) + {proofs[n].value.id}
    ensures Identities(proofs[..n + 1]) == Identities(proofs[..n]) + {proofs[n].value.identity}
    ensures ResolvingEvents(proofs[..n + 1]) == ResolvingEvents(proofs[..n]) + EventOf(proofs[n].value)
  {
    var init, longer := proofs[..n], proofs[..n + 1];
    assert longer[..n] == init;
    ClashesIsRepeat(init, proofs[n].value);
    assert forall i | 0 <= i < n :: longer[i] == init[i];
    assert longer[n] == proofs[n];
  }

  lemma PrefixDistinct(proofs: seq<Option<Proof>>, n: nat)
    requires n <= |proofs| && AllDistinct(proofs)
    ensures AllDistinct(proofs[..n])
  {
  }

  // The growing seen-sets accept exactly the evidence that proves every row by
  // itself and repeats no id, no identity and no resolving event.
  method CommittedReviewSemanticsValid(rows: seq<QuarantineRow>, resolution: Resolution, sourceFileId: string)
    returns (ok: bool)
    ensures ok <==> EvidenceProves(rows, resolution, sourceFileId)
  {
    ghost var proofs := ProofsOf(rows, resolution, sourceFileId);
    var seenIds: set<int>, seenIdentities: set<string>, seenEvents: set<int> := {}, {}, {};
    var n := 0;
    while n < |rows|
      invariant n <= |rows|
      invariant AllDistinct(proofs[..n])
      invariant seenIds == Ids(proofs[..n])
      invariant seenIdentities == Identities(proofs[..n])
      invariant seenEvents == ResolvingEvents(proofs[..n])
    {
      var proof := ProofOf(rows[n], resolution, sourceFileId);
      if proof.None? {
        return false;
      }
      var p := proof.value;
      DistinctExtends(proofs, n);
      if p.id in seenIds || p.identity in seenIdentities || (p.event.Some? && p.event.value in seenEvents) {
        if AllDistinct(proofs) {
          PrefixDistinct(proofs, n + 1);
        }
        return false;
      }
      seenIds, seenIdentities := seenIds + {p.id}, seenIdentities + {p.identity};
      seenEvents := seenEvents + EventOf(p);
      n := n + 1;
    }
    assert proofs[..n] == proofs;
    return |rows| > 0;
  }

  // n proved rows stand for n events: one identity each, and one resolving
  // server event for each row that is not local-only.
  lemma {:induction false} EvidenceCounts(proofs: seq<Option<Proof>>)
    requires AllDistinct(proofs)
    ensures |Identities(proofs)| == |proofs|
    ensures |ResolvingEvents(proofs)| + LocalOnlyCount(proofs) == |proofs|
  {
    if proofs != [] {
      var n := |proofs| - 1;
      PrefixDistinct(proofs, n);
      EvidenceCounts(proofs[..n]);
      assert proofs[..n + 1] == proofs;
      DistinctExtends(proofs, n);
    }
  }
}
