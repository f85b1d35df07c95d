// The durable relay queue and the runtime authority it shares, one function per
// SQLite transaction, and the store that runs them in place.
//
// One credential scope is modelled: its single authority row and the relay rows
// queued under it.  Hashes are injective, so the stored resolution keeps the
// evidence itself instead of its digest.
module RelayQueue {
  import opened Common
  import opened Receipts
  import opened ReviewEvidence

  type RelayId = string

  // What a row says about its source file; no transaction changes it.
  datatype Source = Source(fileId: string, installId: string, relativePath: string, content: string,
                           byteLength: nat, rowCount: nat)

  datatype Row = Row(
    status: Status, leaseOwner: Option<string>, leaseExpires: Option<int>, attempts: nat,
    nextAttempt: Option<int>, code: Code, receipt: Option<Receipt>, runtime: Option<Runtime>,
    legacyReplay: bool, source: Source)

  datatype AuthorityStatus = Awaiting | Active | InReview | LegacyDisabled

  // An unspent token together with its request sequence.
  datatype Slot = Slot(token: Token, sequence: nat)

  // A journaled lease request; a renewal presents the fence it holds.
  datatype Request = Request(key: nat, renewal: bool)

  datatype Authority = Authority(
    instance: nat, fence: Option<nat>, next: Option<Slot>, expiresAt: Option<int>,
    assignedTo: Option<RelayId>, pending: Option<Request>, status: AuthorityStatus, code: Code, updatedAt: int)

  datatype Acknowledgement = Acknowledgement(resolution: Resolution, evidence: seq<QuarantineRow>)

  datatype Queue = Queue(rows: map<RelayId, Row>, authority: Option<Authority>,
                         resolutions: map<RelayId, Acknowledgement>)

  // What a worker remembers of the row it claimed.
  datatype Claim = Claim(relay: RelayId, owner: string, attempt: nat, previous: Status, previousNext: Option<int>)

  datatype Fault = NotBound | AuthorityMismatch

  datatype FinishOutcome = LeaseLost | RolledBack(fault: Fault) | Written(queue: Queue)

  const EMPTY_QUEUE := Queue(map[], None, map[])

  // What the worker knew when it prepared the upload: whether it saw the runtime
  // fields the row has by now, and the fencing policy it read.
  datatype View = View(sawRuntime: bool, legacy: bool)

  function PlanOf(id: RelayId, row: Row, view: View): Plan {
    var runtime := if view.sawRuntime then row.runtime else None;
    Plan(id, row.source.fileId, row.source.installId, row.source.rowCount, runtime, view.legacy || runtime.None?)
  }

  // ------------------------------------------------------------- enqueue, lease

  function NewRow(source: Source, now: int): Row {
    Row(Pending, None, None, 0, Some(now), NoError, None, None, false, source)
  }

  function ResetRow(row: Row, now: int): Row {
    if row.status.Leased? && row.leaseExpires.Some? && row.leaseExpires.value <= now
    then row.(status := Pending, leaseOwner := None, leaseExpires := None) else row
  }

  function ResetStale(q: Queue, now: int): Queue {
    q.(rows := map id | id in q.rows :: ResetRow(q.rows[id], now))
  }

  predicate Due(row: Row, now: int) {
    Claimable(row.status) && (row.nextAttempt.None? || row.nextAttempt.value <= now)
  }

  function LeasedRow(row: Row, worker: string, expires: int): Row {
    row.(status := Leased, attempts := row.attempts + 1, leaseOwner := Some(worker), leaseExpires := Some(expires))
  }

  function ClaimOf(id: RelayId, row: Row, worker: string): Claim {
    Claim(id, worker, row.attempts + 1, row.status, row.nextAttempt)
  }

  // The claim handed to the worker is read back after the commit, outside the
  // transaction: owner and attempt are whatever the row says by then.
  function ReadBack(row: Row, c: Claim): Claim {
    c.(owner := if row.leaseOwner.Some? then row.leaseOwner.value else "", attempt := row.attempts)
  }

  // The compare-and-set guard of every write made under a claim.
  predicate Holds(q: Queue, c: Claim) {
    && c.relay in q.rows
    && q.rows[c.relay].status.Leased?
    && q.rows[c.relay].leaseOwner == Some(c.owner)
    && q.rows[c.relay].attempts == c.attempt
  }

  function PausedRow(row: Row, c: Claim): Row {
    var status := if Claimable(c.previous) then c.previous else Pending;
    row.(status := status, attempts := if c.attempt == 0 then 0 else c.attempt - 1,
         leaseOwner := None, leaseExpires := None,
         nextAttempt := if status.RetryWait? then c.previousNext else None, code := Named("operator_paused"))
  }

  // ------------------------------------------------------------- authority

  function NewAuthority(instance: nat, now: int): Authority {
    Authority(instance, None, None, None, None, None, Awaiting, NoError, now)
  }

  function Replaced(a: Authority, instance: nat, now: int): Authority {
    NewAuthority(instance, now)
  }

  function Quarantined(a: Authority, code: Code, now: int): Authority {
    a.(next := None, assignedTo := None, pending := None, status := InReview, code := code, updatedAt := now)
  }

  // With no authority assigned to the row the credential scope decides which
  // authority is quarantined; without credentials none is.
  function QuarantineAuthority(a: Option<Authority>, id: RelayId, code: Code, scoped: bool, instance: nat, now: int)
    : Option<Authority>
  {
    if a.Some? && (a.value.assignedTo == Some(id) || scoped) then Some(Quarantined(a.value, code, now))
    else if a.None? && scoped then Some(Quarantined(NewAuthority(instance, now), code, now))
    else a
  }

  function DisableAuthority(a: Option<Authority>, id: RelayId, instance: nat, now: int): Option<Authority> {
    var base := if a.Some? then a.value else NewAuthority(instance, now);
    Some(Authority(base.instance, None, None, None, None, None, LegacyDisabled, Named("legacy_accepted"), now))
  }

  predicate Bound(a: Authority, id: RelayId, rt: Runtime) {
    a.assignedTo == Some(id) && a.instance == rt.instance && a.fence == Some(rt.fence)
  }

  function ReleaseToken(a: Option<Authority>, id: RelayId, rt: Option<Runtime>, instance: nat, now: int): Option<Authority> {
    if rt.None? then QuarantineAuthority(a, id, Named("runtime_authority_release_metadata_invalid"), true, instance, now)
    else if a.None? || a.value.assignedTo != Some(id) then a
    else if !Bound(a.value, id, rt.value) then
      QuarantineAuthority(a, id, Named("runtime_authority_release_mismatch"), true, instance, now)
    else Some(a.value.(next := Some(Slot(rt.value.token, rt.value.sequence)), assignedTo := None, pending := None,
                       status := Active, code := NoError, updatedAt := now))
  }

  function ExpireAuthority(a: Option<Authority>, id: RelayId, rt: Option<Runtime>, instance: nat, now: int)
    : Result<Option<Authority>, Fault>
  {
    if rt.Some? && a.Some? && a.value.status.Active? && Bound(a.value, id, rt.value)
    then Ok(Some(Replaced(a.value, instance, now))) else Err(NotBound)
  }

  function ApplyRotation(a: Option<Authority>, id: RelayId, rt: Option<Runtime>, rotation: Rotation, now: int)
    : Result<Option<Authority>, Fault>
  {
    if rt.None? then Err(AuthorityMismatch)
    else if a.Some? && (a.value.instance != rt.value.instance || (a.value.assignedTo.Some? && a.value.assignedTo != Some(id))) then
      Err(AuthorityMismatch)
    else Ok(Some(Authority(rt.value.instance, Some(rotation.fence), Some(Slot(Rotated(rt.value.token), rotation.sequence)),
                           Some(rotation.expiresAt), None, None, Active, NoError, now)))
  }

  function EffectiveAction(v: Verdict, assignedHere: bool): Action {
    if !v.action.NoAction? then v.action
    else if ReviewCode(v.code) || LeaseReceiptCode(v.code) then Quarantine
    else if Terminal(v.status) && assignedHere then Quarantine
    else NoAction
  }

  function AuthorityAfter(a: Option<Authority>, id: RelayId, rt: Option<Runtime>, v: Verdict, instance: nat, now: int)
    : Result<Option<Authority>, Fault>
  {
    if v.rotation.Some? then ApplyRotation(a, id, rt, v.rotation.value, now)
    else match EffectiveAction(v, a.Some? && a.value.assignedTo == Some(id))
      case NoAction => Ok(a)
      case Release => Ok(ReleaseToken(a, id, rt, instance, now))
      case ExpireDeadFence => ExpireAuthority(a, id, rt, instance, now)
      case DisableLegacy => Ok(DisableAuthority(a, id, instance, now))
      case Quarantine => Ok(QuarantineAuthority(a, id, v.code, v.scoped, instance, now))
  }

  // ------------------------------------------------------------- finish

  // A terminal row keeps no raw token.
  function FinishedRow(row: Row, v: Verdict): Row {
    row.(status := v.status, leaseOwner := None, leaseExpires := None, nextAttempt := v.retryAt, code := v.code,
         receipt := Some(v.receipt), runtime := if Terminal(v.status) then None else row.runtime)
  }

  function FinishTx(q: Queue, c: Claim, v: Verdict, instance: nat, now: int): FinishOutcome {
    if !Holds(q, c) then LeaseLost
    else
      var row := q.rows[c.relay];
      match AuthorityAfter(q.authority, c.relay, row.runtime, v, instance, now)
      case Err(fault) => RolledBack(fault)
      case Ok(authority) => Written(q.(rows := q.rows[c.relay := FinishedRow(row, v)], authority := authority))
  }

  // ------------------------------------------------------------- token traffic

  predicate TokenAvailable(a: Authority, now: int, timeout: int) {
    && a.next.Some? && a.fence.Some? && a.pending.None? && a.assignedTo.None?
    && !a.status.InReview? && !a.status.LegacyDisabled?
    && a.expiresAt.Some? && a.expiresAt.value > now + Max(60, timeout + 30)
  }

  predicate CanReserve(q: Queue, c: Claim, now: int, timeout: int) {
    && Holds(q, c) && !q.rows[c.relay].legacyReplay && q.rows[c.relay].runtime.None?
    && q.authority.Some? && TokenAvailable(q.authority.value, now, timeout)
  }

  function Reserve(q: Queue, c: Claim, now: int): Queue
    requires c.relay in q.rows && q.authority.Some? && q.authority.value.next.Some? && q.authority.value.fence.Some?
  {
    var a := q.authority.value;
    var rt := Runtime(a.instance, a.fence.value, a.next.value.token, a.next.value.sequence);
    q.(rows := q.rows[c.relay := q.rows[c.relay].(runtime := Some(rt))],
       authority := Some(a.(next := None, assignedTo := Some(c.relay), status := Active, updatedAt := now)))
  }

  // `requester` is the row preparing itself, or None for the liveness tick.
  predicate CanRequest(q: Queue, requester: Option<RelayId>) {
    q.authority.Some? ==>
      var a := q.authority.value;
      && a.pending.None? && !a.status.InReview? && !a.status.LegacyDisabled?
      && (a.assignedTo.None?
          || (requester == a.assignedTo && requester.value in q.rows && q.rows[requester.value].runtime.None?))
  }

  function RequestLease(q: Queue, key: nat, instance: nat, now: int): Queue {
    var a := if q.authority.Some? then q.authority.value else NewAuthority(instance, now);
    q.(authority := Some(a.(pending := Some(Request(key, a.next.Some? && a.fence.Some?)), status := Awaiting, updatedAt := now)))
  }

  function Grant(q: Queue, key: nat, fence: nat, sequence: nat, expiresAt: int, now: int): Queue {
    if q.authority.Some? && q.authority.value.pending.Some? && q.authority.value.pending.value.key == key
       && q.authority.value.assignedTo.None?
    then q.(authority := Some(q.authority.value.(
              fence := Some(fence), next := Some(Slot(Granted(key), sequence)), expiresAt := Some(expiresAt),
              pending := None, status := Active, code := NoError, updatedAt := now)))
    else q
  }

  // A grant that does not match the request; the update names no guard.
  function GrantInvalid(q: Queue, now: int): Queue {
    if q.authority.Some?
    then q.(authority := Some(q.authority.value.(status := InReview, code := Named("runtime_lease_response_invalid"), updatedAt := now)))
    else q
  }

  function LeaseRefused(q: Queue, key: nat, code: Code, now: int): Queue {
    if q.authority.Some? && q.authority.value.pending.Some? && q.authority.value.pending.value.key == key
    then q.(authority := Some(q.authority.value.(status := InReview, code := code, updatedAt := now)))
    else q
  }

  // A review whose prior authority is provably dead.
  predicate ReviewRecoverable(a: Authority, now: int, ttl: int) {
    && a.status.InReview? && a.assignedTo.None?
    && (|| (a.code.ExactCloneConflict? && now - a.updatedAt >= ttl)
        || (a.code.MetadataInvalidBeforePost? && a.pending.None? && a.next.None? && a.fence.Some?
            && a.expiresAt.Some? && a.expiresAt.value <= now)
        || (a.code.StaleFence? && a.pending.Some? && a.pending.value.renewal))
  }

  predicate Expired(a: Authority, now: int) {
    a.expiresAt.Some? && a.expiresAt.value <= now && a.assignedTo.None? && a.pending.None? && !a.status.InReview?
  }

  function Reissue(q: Queue, instance: nat, now: int, ttl: int, mode: Mode): Queue {
    if q.authority.Some?
       && ((q.authority.value.status.LegacyDisabled? && mode.Enforce?)
           || ReviewRecoverable(q.authority.value, now, ttl) || Expired(q.authority.value, now))
    then q.(authority := Some(Replaced(q.authority.value, instance, now)))
    else q
  }

  // ------------------------------------------------------------- operator

  predicate MayBeCommitted(r: Receipt) {
    (r.committed != Absent && r.committed != False) || (r.localCommitted != Absent && r.localCommitted != False)
  }

  predicate Unleased(row: Row) { row.leaseOwner.None? && row.leaseExpires.None? }

  // `intact`: the spool copy has its recorded bytes and the metadata parses.
  predicate CanRetry(q: Queue, id: RelayId, allowReview: bool, expected: set<Code>, intact: bool) {
    && id in q.rows && intact && Unleased(q.rows[id])
    && (q.rows[id].status.FailedPermanent?
        || (allowReview && q.rows[id].status.OperatorReview?
            && (q.rows[id].receipt.Some? ==> !MayBeCommitted(q.rows[id].receipt.value))))
    && (expected != {} ==> q.rows[id].code in expected)
  }

  function RetriedRow(row: Row): Row {
    row.(status := Pending, leaseOwner := None, leaseExpires := None, nextAttempt := None, code := NoError,
         receipt := None, runtime := None)
  }

  // What the operator expects of the row, the receipt and the evidence.
  datatype ResolveRequest = ResolveRequest(
    resolution: Resolution, evidence: seq<QuarantineRow>, requestId: string, fileId: string,
    relativePath: string, content: string, byteLength: nat,
    inserted: nat, replayed: nat, quarantined: nat, errors: nat)

  predicate TotalsAre(t: TotalsField, rq: ResolveRequest) {
    && t.inserted == Integer(rq.inserted) && t.replayed == Integer(rq.replayed)
    && t.quarantined == Integer(rq.quarantined) && t.errors == Integer(rq.errors)
  }

  predicate ReceiptResolvable(id: RelayId, r: Receipt, rq: ResolveRequest, rowCount: nat) {
    && r.committed == True && r.localCommitted == True && r.status == "accepted"
    && r.requestId == rq.requestId && r.serverSourceFileId == rq.fileId
    && r.clientBatchId == id && r.retryable == False
    && r.totals.Some? && TotalsAre(r.totals.value, rq) && rq.errors == 0
    && rq.inserted + rq.replayed + rq.quarantined + rq.errors == rowCount
    && r.declaredRows == Integer(rowCount)
  }

  ghost predicate CanResolve(q: Queue, id: RelayId, rq: ResolveRequest, filesIntact: bool) {
    && id in q.rows && id !in q.resolutions && filesIntact
    && rq.quarantined > 0 && rq.byteLength > 0
    && |rq.evidence| == rq.quarantined && EvidenceProves(rq.evidence, rq.resolution, rq.fileId)
    && var row := q.rows[id];
    && row.status.OperatorReview? && Unleased(row)
    && row.source.relativePath == rq.relativePath && row.source.byteLength == rq.byteLength
    && row.source.content == rq.content
    && row.receipt.Some? && ReceiptResolvable(id, row.receipt.value, rq, row.source.rowCount)
  }

  function Resolve(q: Queue, id: RelayId, rq: ResolveRequest): Queue
    requires id in q.rows
  {
    q.(rows := q.rows[id := q.rows[id].(status := Acked)],
       resolutions := q.resolutions[id := Acknowledgement(rq.resolution, rq.evidence)])
  }

  // ------------------------------------------------------------- the store

  // The relay database: each method is one connection, its assignments the
  // statements of one transaction.
  class RelayStore {
    var rows: map<RelayId, Row>
    var authority: Option<Authority>
    var resolutions: map<RelayId, Acknowledgement>

    function Snapshot(): Queue
      reads this
    {
      Queue(rows, authority, resolutions)
    }

    constructor ()
      ensures Snapshot() == EMPTY_QUEUE
    {
      rows, authority, resolutions := map[], None, map[];
    }

    // Exactly the expired leases go; nothing else in any row changes, and no row
    // is left with an expired lease.
    method ResetStaleLeases(now: int)
      modifies this
      ensures Snapshot() == ResetStale(old(Snapshot()), now)
      ensures forall id | id in rows ::
                if rows[id] == old(rows)[id] then !(rows[id].status.Leased? && rows[id].leaseExpires.Some? && rows[id].leaseExpires.value <= now)
                else rows[id].status.Pending? && rows[id].attempts == old(rows)[id].attempts && rows[id].runtime == old(rows)[id].runtime
    {
      rows := map id | id in rows :: ResetRow(rows[id], now);
    }

    // The claiming transaction: resets stale leases, then leases the named row if
    // it is due.  The result is what this transaction wrote.
    method CommitLease(id: RelayId, worker: string, now: int, leaseSeconds: nat) returns (written: Option<Claim>)
      modifies this
      ensures var q := ResetStale(old(Snapshot()), now);
              if id in q.rows && Due(q.rows[id], now)
              then written == Some(ClaimOf(id, q.rows[id], worker))
                   && Snapshot() == q.(rows := q.rows[id := LeasedRow(q.rows[id], worker, now + leaseSeconds)])
                   && Holds(Snapshot(), written.value)
              else written.None? && Snapshot() == q
      // leased exactly when it waits for nobody and for no later time
      ensures var q := ResetStale(old(Snapshot()), now);
              written.Some? <==>
              && id in q.rows && (q.rows[id].status == Pending || q.rows[id].status == RetryWait)
              && (q.rows[id].nextAttempt == None || q.rows[id].nextAttempt.value <= now)
      ensures written.Some? ==>
                && id in rows && rows[id].status == Leased && rows[id].leaseOwner == Some(worker)
                && rows[id].leaseExpires == Some(now + leaseSeconds) && rows[id].attempts == old(rows)[id].attempts + 1
                && rows[id].source == old(rows)[id].source && rows[id].runtime == old(rows)[id].runtime
      ensures forall k | k in rows && k != id :: k in old(rows) && rows[k] == ResetRow(old(rows)[k], now)
    {
      ResetStaleLeases(now);
      if id !in rows || !Due(rows[id], now) {
        return None;
      }
      written := Some(ClaimOf(id, rows[id], worker));
      rows := rows[id := LeasedRow(rows[id], worker, now + leaseSeconds)];
    }

    // The read after the commit.  It returns the written claim while the lease
    // stands; later it returns a claim that passes the guard if anyone's lease does.
    method ReadBackClaim(written: Claim) returns (claim: Claim)
      requires written.relay in rows
      ensures claim == ReadBack(rows[written.relay], written)
      ensures Holds(Snapshot(), written) ==> claim == written
      ensures Holds(Snapshot(), claim) <==> rows[written.relay].status.Leased? && rows[written.relay].leaseOwner.Some?
    {
      var row := rows[written.relay];
      return written.(owner := if row.leaseOwner.Some? then row.leaseOwner.value else "", attempt := row.attempts);
    }

    // A pause gives row and attempt back to the queue; other rows are untouched.
    method ReleaseAfterPause(c: Claim) returns (released: bool)
      modifies this
      ensures released == old(Holds(Snapshot(), c))
      ensures if released then Snapshot() == old(Snapshot().(rows := rows[c.relay := PausedRow(rows[c.relay], c)]))
              else Snapshot() == old(Snapshot())
      ensures forall id | id in old(rows) && id != c.relay :: id in rows && rows[id] == old(rows)[id]
      ensures released ==> !Holds(Snapshot(), c) && Claimable(rows[c.relay].status) && rows[c.relay].runtime == old(rows)[c.relay].runtime
      ensures released && c.attempt > 0 ==> rows[c.relay].attempts == old(rows)[c.relay].attempts - 1
      // a row that was waiting for a retry waits for it again
      ensures released && c.previous == RetryWait ==> rows[c.relay].status == RetryWait && rows[c.relay].nextAttempt == c.previousNext
      ensures released && c.previous != RetryWait ==> rows[c.relay].status == Pending && rows[c.relay].nextAttempt == None
    {
      released := Holds(Snapshot(), c);
      if released {
        rows := rows[c.relay := PausedRow(rows[c.relay], c)];
      }
    }

    // The guarded status update, the authority action and the token scrub of one
    // transaction; a fault rolls all of it back.
    method SetClaimedStatus(c: Claim, v: Verdict, instance: nat, now: int) returns (written: bool, fault: Option<Fault>)
      modifies this
      ensures match FinishTx(old(Snapshot()), c, v, instance, now)
              case LeaseLost => !written && fault.None? && Snapshot() == old(Snapshot())
              case RolledBack(f) => !written && fault == Some(f) && Snapshot() == old(Snapshot())
              case Written(q) => written && fault.None? && Snapshot() == q
    {
      if !Holds(Snapshot(), c) {
        return false, None;
      }
      var before := Snapshot();
      var row := rows[c.relay];
      rows := rows[c.relay := row.(status := v.status, leaseOwner := None, leaseExpires := None,
                                   nextAttempt := v.retryAt, code := v.code, receipt := Some(v.receipt))];
      var assignedTo := authority.Some? && authority.value.assignedTo == Some(c.relay);
      var next := Ok(authority);
      if v.rotation.Some? {
        next := ApplyRotation(authority, c.relay, row.runtime, v.rotation.value, now);
      } else {
        match EffectiveAction(v, assignedTo) {
          case NoAction =>
          case Release => next := Ok(ReleaseToken(authority, c.relay, row.runtime, instance, now));
          case ExpireDeadFence => next := ExpireAuthority(authority, c.relay, row.runtime, instance, now);
          case DisableLegacy => next := Ok(DisableAuthority(authority, c.relay, instance, now));
          case Quarantine => next := Ok(QuarantineAuthority(authority, c.relay, v.code, v.scoped, instance, now));
        }
      }
      if next.Err? {
        rows, authority, resolutions := before.rows, before.authority, before.resolutions;
        return false, Some(next.error);
      }
      authority := next.value;
      if Terminal(v.status) {
        rows := rows[c.relay := rows[c.relay].(runtime := None)];
      }
      assert rows == before.rows[c.relay := FinishedRow(row, v)];
      return true, None;
    }

    // The attempt count and the source survive a retry, so older claims stay dead;
    // receipt, code and runtime fields go.
    method RetryDead(id: RelayId, allowReview: bool, expected: set<Code>, intact: bool) returns (retried: bool)
      modifies this
      ensures retried == old(CanRetry(Snapshot(), id, allowReview, expected, intact))
      ensures if retried then Snapshot() == old(Snapshot().(rows := rows[id := RetriedRow(rows[id])]))
              else Snapshot() == old(Snapshot())
      ensures forall k | k in old(rows) && k != id :: k in rows && rows[k] == old(rows)[k]
      ensures retried ==> rows[id].attempts == old(rows)[id].attempts && rows[id].source == old(rows)[id].source
      ensures retried ==> !old(rows)[id].status.Acked? && forall now :: Due(rows[id], now)
    {
      retried := CanRetry(Snapshot(), id, allowReview, expected, intact);
      if retried {
        rows := rows[id := RetriedRow(rows[id])];
      }
    }

    // Acknowledges a committed review on proved evidence, without touching its receipt.
    method ResolveCommittedReview(id: RelayId, rq: ResolveRequest, filesIntact: bool) returns (resolved: bool)
      modifies this
      ensures resolved == old(CanResolve(Snapshot(), id, rq, filesIntact))
      ensures if resolved then Snapshot() == Resolve(old(Snapshot()), id, rq) else Snapshot() == old(Snapshot())
    {
      var proved := CommittedReviewSemanticsValid(rq.evidence, rq.resolution, rq.fileId);
      resolved := proved && |rq.evidence| == rq.quarantined && rq.quarantined > 0 && rq.byteLength > 0
                  && id in rows && id !in resolutions && filesIntact
                  && rows[id].status.OperatorReview? && Unleased(rows[id])
                  && rows[id].source.relativePath == rq.relativePath && rows[id].source.byteLength == rq.byteLength
                  && rows[id].source.content == rq.content
                  && rows[id].receipt.Some? && ReceiptResolvable(id, rows[id].receipt.value, rq, rows[id].source.rowCount);
      if resolved {
        resolutions := resolutions[id := Acknowledgement(rq.resolution, rq.evidence)];
        rows := rows[id := rows[id].(status := Acked)];
      }
    }
  }
}
