// How the relay judges one server answer: the strict receipt check, the
// runtime-lease rotation check, the upload result and the row status that the
// drain loop writes for it.
//
// Text fields stand for their stripped value; JSON values that the client
// tests with `is True` / `is False` are `Flag`s.
module Receipts {
  import opened Common

  datatype Flag = Absent | True | False | Other

  datatype JsonInt = Missing | NotInteger | Integer(n: int)

  // Error codes, split by what the client does with them.
  datatype Code =
    | NoError
    | ExactCloneConflict
    | StaleFence
    | StaleRequestToken
    | LeaseReceiptMissing
    | LeaseReceiptObservedLegacy
    | LeaseReceiptInvalid
    | MetadataInvalidBeforePost
    | Named(name: string)

  // The codes that send a row and its authority to operator review.
  predicate ReviewCode(c: Code) {
    c.ExactCloneConflict? || c.StaleFence? || c.StaleRequestToken?
  }

  // The codes whose text starts with "runtime_lease_receipt".
  predicate LeaseReceiptCode(c: Code) {
    c.LeaseReceiptMissing? || c.LeaseReceiptObservedLegacy? || c.LeaseReceiptInvalid?
  }

  // A one-shot server token.  A truthful server answers one lease request with
  // one token, and one consumption of a token with one successor, however often
  // the request is replayed.
  datatype Token = Granted(request: nat) | Rotated(previous: Token)

  function Root(t: Token): nat {
    match t
    case Granted(k) => k
    case Rotated(p) => Root(p)
  }

  // The runtime fields attached to a relay row.
  datatype Runtime = Runtime(instance: nat, fence: nat, token: Token, sequence: nat)

  datatype TotalsField = TotalsField(inserted: JsonInt, replayed: JsonInt, errors: JsonInt, quarantined: JsonInt)

  datatype LeaseField = LeaseField(
    validation: string, reason: Code, contractCurrent: bool, fence: JsonInt,
    leaseIdPresent: bool, tokenWellFormed: bool, nextSequence: JsonInt, expiresAt: Option<int>)

  datatype Payload = Payload(
    committed: Flag, localCommitted: Flag, retryable: Flag,
    clientBatchId: string, serverSourceFileId: string, requestId: string, uploadId: string,
    status: string, nextRetryNull: bool, errorNull: bool, errorCode: Code,
    projection: Option<string>, totals: Option<TotalsField>, declaredRows: JsonInt,
    installId: string, lease: Option<LeaseField>)

  // What a relay row's receipt column holds.
  datatype Receipt = Receipt(
    committed: Flag, localCommitted: Flag, retryable: Flag, clientBatchId: string,
    serverSourceFileId: string, requestId: string, status: string,
    totals: Option<TotalsField>, declaredRows: JsonInt)

  datatype Plan = Plan(
    batchId: string, sourceFileId: string, installId: string, rowCount: nat,
    runtime: Option<Runtime>, legacyReplay: bool)

  datatype Mode = Observe | Enforce

  datatype Disposition = NoDisposition | LegacyAccepted | DeadFence

  datatype Rotation = Rotation(sequence: nat, fence: nat, expiresAt: int)

  // A Retry-After header: absent or unreadable, a number, or a date so many
  // seconds ahead of the client's clock (section 10.2.3 of RFC 9110).
  datatype RetryHeader = NoHeader | Seconds(n: int) | Date(ahead: real)

  datatype Answer = Answer(statusCode: int, body: Option<Payload>, retryAfter: RetryHeader)

  datatype UploadResult = UploadResult(
    success: bool, committed: bool, retryable: bool, receipt: Receipt, retryAfter: Option<nat>,
    errorCode: Code, rotation: Option<Rotation>, disposition: Disposition, tokenUnconsumed: bool)

  const EMPTY_RECEIPT := Receipt(Absent, Absent, Absent, "", "", "", "", None, Missing)

  const MAX_RETRY_AFTER := 24 * 60 * 60

  function Min(a: int, b: int): int { if a <= b then a else b }

  function Max(a: int, b: int): int { if a <= b then b else a }

  function Ceiling(x: real): int { -((-x).Floor) }

  function HeaderSeconds(h: RetryHeader): Option<nat> {
    match h
    case NoHeader => None
    case Seconds(n) => Some(Min(Max(0, n), MAX_RETRY_AFTER))
    case Date(ahead) => Some(Min(Max(0, Ceiling(ahead)), MAX_RETRY_AFTER))
  }

  // The delay taken from a header is the least whole delay that is not earlier
  // than asked for, within zero and one day.
  lemma HeaderDelayIsLeast(h: RetryHeader)
    requires !h.NoHeader?
    ensures HeaderSeconds(h).Some? && 0 <= HeaderSeconds(h).value <= MAX_RETRY_AFTER
    ensures var asked := if h.Seconds? then h.n as real else h.ahead;
            var delay := HeaderSeconds(h).value;
            && (asked <= MAX_RETRY_AFTER as real ==> asked <= delay as real)
            && (asked >= MAX_RETRY_AFTER as real ==> delay == MAX_RETRY_AFTER)
            && (delay > 0 ==> (delay - 1) as real < asked)
  {
  }

  function ReceiptOf(p: Payload): Receipt {
    Receipt(p.committed, p.localCommitted, p.retryable, p.clientBatchId, p.serverSourceFileId,
            p.requestId, p.status, p.totals, p.declaredRows)
  }

  // A local receipt that only names the batch.
  function BatchReceipt(batchId: string): Receipt {
    EMPTY_RECEIPT.(clientBatchId := batchId)
  }

  function Strict(v: JsonInt): Option<nat> {
    if v.Integer? && v.n >= 0 then Some(v.n) else None
  }

  // Every source row is accounted for: inserted, replayed or quarantined, none in error.
  predicate Conserves(totals: Option<TotalsField>, rowCount: nat, quarantined: nat) {
    && totals.Some?
    && Strict(totals.value.inserted).Some?
    && Strict(totals.value.replayed).Some?
    && Strict(totals.value.errors) == Some(0)
    && Strict(totals.value.quarantined) == Some(quarantined)
    && Strict(totals.value.inserted).value + Strict(totals.value.replayed).value + quarantined == rowCount
  }

  datatype ReceiptIssue = ReceiptIssue(code: Code, errors: nat, quarantined: nat)

  function TotalsIssue(totals: TotalsField, rowCount: nat): ReceiptIssue {
    var i, r := Strict(totals.inserted), Strict(totals.replayed);
    var e, q := Strict(totals.errors), Strict(totals.quarantined);
    if i.None? || r.None? || e.None? || q.None? then ReceiptIssue(Named("producer_receipt_invalid"), 0, 0)
    else if i.value + r.value + e.value + q.value != rowCount then
      ReceiptIssue(Named("producer_receipt_invalid"), e.value, q.value)
    else ReceiptIssue(NoError, e.value, q.value)
  }

  // The strict check of a committed receipt.
  function CommittedReceiptIssue(plan: Plan, p: Payload): ReceiptIssue {
    if p.clientBatchId == "" then ReceiptIssue(Named("receipt_identity_missing"), 0, 0)
    else if p.clientBatchId != plan.batchId then ReceiptIssue(Named("receipt_identity_mismatch"), 0, 0)
    else if p.serverSourceFileId == "" then ReceiptIssue(Named("receipt_identity_missing"), 0, 0)
    else if p.serverSourceFileId != plan.sourceFileId then ReceiptIssue(Named("receipt_identity_mismatch"), 0, 0)
    else if p.requestId == "" || p.uploadId == "" then ReceiptIssue(Named("receipt_trace_missing"), 0, 0)
    else if p.uploadId != p.requestId then ReceiptIssue(Named("receipt_trace_mismatch"), 0, 0)
    else if p.status != "accepted" || p.retryable != False || !p.nextRetryNull || !p.errorNull || p.projection.None? then
      ReceiptIssue(Named("producer_receipt_invalid"), 0, 0)
    else if p.projection.value != "COMPLETE" then ReceiptIssue(Named("producer_projection_incomplete"), 0, 0)
    else if p.totals.None? then ReceiptIssue(Named("producer_receipt_invalid"), 0, 0)
    else TotalsIssue(p.totals.value, plan.rowCount)
  }

  // The rotation carried by a committed receipt, or why there is none.
  function RuntimeReceiptResult(plan: Plan, p: Payload): (Option<Rotation>, Code) {
    if p.lease.Some? && p.lease.value.validation == "observed" && p.lease.value.reason == Named("RUNTIME_LEASE_MISSING_OBSERVED") then
      (None, LeaseReceiptObservedLegacy)
    else if plan.runtime.None? then (None, NoError)
    else if p.lease.None? then (None, LeaseReceiptMissing)
    else if p.installId != plan.installId then (None, LeaseReceiptInvalid)
    else
      var lease := p.lease.value;
      if lease.validation == "observed_rejected" then
        (None, if lease.reason.NoError? then StaleRequestToken else lease.reason)
      else if lease.contractCurrent && lease.validation == "consumed"
              && lease.fence == Integer(plan.runtime.value.fence) && lease.leaseIdPresent && lease.tokenWellFormed
              && lease.nextSequence == Integer(plan.runtime.value.sequence + 1) && lease.expiresAt.Some? then
        (Some(Rotation(plan.runtime.value.sequence + 1, plan.runtime.value.fence, lease.expiresAt.value)), NoError)
      else (None, LeaseReceiptInvalid)
  }

  predicate Ok2xx(code: int) { 200 <= code < 300 }

  predicate Redirect(code: int) { 300 <= code < 400 }

  predicate RetryableStatus(code: int) { code in {408, 429, 500, 502, 503, 504} }

  function CommittedAnswer(plan: Plan, mode: Mode, statusCode: int, p: Payload): UploadResult {
    var issue := CommittedReceiptIssue(plan, p);
    var (rotation, runtimeCode) := RuntimeReceiptResult(plan, p);
    var clean := issue.code.NoError?;
    var observed := runtimeCode.LeaseReceiptMissing? || runtimeCode.LeaseReceiptObservedLegacy?;
    var legacyAccepted := plan.legacyReplay && rotation.None? && (runtimeCode.NoError? || observed) && clean;
    var observeAccepted := observed && mode.Observe? && clean;
    var deadFence := runtimeCode.StaleFence? && p.lease.Some? && p.lease.value.contractCurrent && Ok2xx(statusCode)
                     && clean && issue.errors == 0 && issue.quarantined == 0;
    var disposition := if legacyAccepted || observeAccepted then LegacyAccepted
                       else if deadFence then DeadFence else NoDisposition;
    var code := if disposition.NoDisposition? && !runtimeCode.NoError? then runtimeCode else issue.code;
    var producerCode := if !Ok2xx(statusCode) && code.NoError? && p.errorCode.NoError?
                        then Named("producer_committed_non_2xx") else p.errorCode;
    UploadResult(
      Ok2xx(statusCode) && code.NoError? && issue.errors == 0 && issue.quarantined == 0,
      true, false, ReceiptOf(p), None,
      if code.NoError? then producerCode else code, rotation, disposition, false)
  }

  // The upload result of one HTTP answer.
  function Judge(plan: Plan, mode: Mode, a: Answer): UploadResult {
    if Redirect(a.statusCode) then
      UploadResult(false, false, false, if a.body.Some? then ReceiptOf(a.body.value) else EMPTY_RECEIPT, None,
                   Named("producer_redirect_not_allowed"), None, NoDisposition, false)
    else if a.body.None? && !Ok2xx(a.statusCode) then
      UploadResult(false, false, RetryableStatus(a.statusCode), EMPTY_RECEIPT,
                   if RetryableStatus(a.statusCode) then HeaderSeconds(a.retryAfter) else None,
                   Named("producer_response_invalid_json"), None, NoDisposition, false)
    else if a.body.None? || (Ok2xx(a.statusCode) && a.body.value.committed != True) then
      UploadResult(false, true, false, if a.body.Some? then ReceiptOf(a.body.value) else EMPTY_RECEIPT, None,
                   Named("producer_receipt_invalid"), None, NoDisposition, false)
    else if a.body.value.committed == True then CommittedAnswer(plan, mode, a.statusCode, a.body.value)
    else
      var p := a.body.value;
      var retryable := p.retryable == True || RetryableStatus(a.statusCode);
      UploadResult(false, false, retryable, ReceiptOf(p), if retryable then HeaderSeconds(a.retryAfter) else None,
                   p.errorCode, None, NoDisposition, p.committed == False && a.statusCode >= 400)
  }

  // Which answers the client treats as committed: every 2xx, and any other
  // answer whose body says so unless it is a redirect.
  lemma CommittedExactly(plan: Plan, mode: Mode, a: Answer)
    ensures Judge(plan, mode, a).committed <==>
            Ok2xx(a.statusCode)
            || (a.body.Some? && a.body.value.committed == True && !Redirect(a.statusCode))
  {
  }

  // A committed answer is never scheduled for another upload.
  lemma CommittedIsNotRetryable(plan: Plan, mode: Mode, a: Answer)
    ensures Judge(plan, mode, a).committed ==> !Judge(plan, mode, a).retryable && !Judge(plan, mode, a).tokenUnconsumed
    ensures Judge(plan, mode, a).success ==> Judge(plan, mode, a).committed
  {
  }

  // A success, and a dead-fence acknowledgement, carries a receipt that
  // accounts for every source row with nothing quarantined.
  lemma SuccessConserves(plan: Plan, mode: Mode, a: Answer)
    ensures Judge(plan, mode, a).success || Judge(plan, mode, a).disposition.DeadFence? ==>
              && Ok2xx(a.statusCode)
              && Judge(plan, mode, a).receipt.clientBatchId == plan.batchId
              && Conserves(Judge(plan, mode, a).receipt.totals, plan.rowCount, 0)
  {
  }

  // ------------------------------------------------------------------ drain

  datatype Status = Pending | Leased | RetryWait | Acked | FailedPermanent | OperatorReview

  predicate Terminal(s: Status) { s.Acked? || s.FailedPermanent? || s.OperatorReview? }

  predicate Claimable(s: Status) { s.Pending? || s.RetryWait? }

  datatype Action = NoAction | Release | ExpireDeadFence | DisableLegacy | Quarantine

  // What the drain loop asks the status transaction to write.
  // (`scoped`: the credentials are passed along, so that an authority action can
  // find the credential scope even when no authority is assigned to the row).
  datatype Verdict = Verdict(status: Status, receipt: Receipt, code: Code, retryAt: Option<int>,
                             rotation: Option<Rotation>, action: Action, scoped: bool)

  // Everything that can end one drain of a claimed row.  A preparation asks for
  // the delay of the lease answer's header, or for one second.
  datatype Report =
    | SpoolUnusable
    | MetadataInvalid
    | CredentialsChanged
    | PreparationFailed(retryable: bool, review: bool, code: Code, retryAfter: RetryHeader, reply: Receipt)
    | UploadRaised
    | SourceChanged
    | TransportError
    | Answered(answer: Answer)

  function UploadOf(plan: Plan, mode: Mode, r: Report): UploadResult
    requires r.SourceChanged? || r.TransportError? || r.Answered?
  {
    match r
    case Answered(a) => Judge(plan, mode, a)
    case TransportError =>
      UploadResult(false, false, true, EMPTY_RECEIPT, None, Named("transport_error"), None, NoDisposition, false)
    case SourceChanged =>
      UploadResult(false, false, false, EMPTY_RECEIPT, None, Named("source_file_digest_mismatch"), None, NoDisposition, false)
  }

  // The receipt kept with a review: a committed result is marked locally.
  function ReviewReceipt(plan: Plan, u: UploadResult): Receipt {
    if !u.committed then u.receipt
    else u.receipt.(localCommitted := True,
                    clientBatchId := if u.receipt.clientBatchId == "" then plan.batchId else u.receipt.clientBatchId)
  }

  // Back-off of the attempt-th try; `jitterHash` is the 32-bit prefix of the key's digest.
  function BackoffSeconds(attempt: int, base: int, jitterHash: Option<nat>): int {
    var delay := Max(1, base) * Min(Max(1, attempt), 5);
    if jitterHash.None? then delay
    else delay + jitterHash.value % (Min(Min(Max(1, delay / 5), Max(1, base)), 300) + 1)
  }

  // The verdict for an upload result.  `deadFenceLost` is the second pass taken
  // after the authority turned out not to be bound to a dead-fence upload.
  function VerdictOf(plan: Plan, mode: Mode, u: UploadResult, attempt: nat, now: int, base: int, jitter: Option<nat>,
                     deadFenceLost: bool): Verdict
  {
    if u.disposition.DeadFence? && !deadFenceLost then
      Verdict(Acked, u.receipt, u.errorCode, None, None, ExpireDeadFence, true)
    else if u.disposition.DeadFence? then
      Verdict(OperatorReview, ReviewReceipt(plan, u), StaleFence, None, u.rotation,
              if u.rotation.None? then Quarantine else NoAction, true)
    else if u.success then
      Verdict(Acked, u.receipt, u.errorCode, None, u.rotation,
              if u.disposition.LegacyAccepted? then DisableLegacy else NoAction, true)
    else if u.committed then
      Verdict(OperatorReview, ReviewReceipt(plan, u), u.errorCode, None, u.rotation,
              if u.disposition.LegacyAccepted? then DisableLegacy
              else if u.rotation.None? then Quarantine else NoAction, true)
    else if plan.legacyReplay && u.tokenUnconsumed && mode.Enforce? then
      Verdict(OperatorReview, u.receipt,
              if u.errorCode.NoError? then Named("legacy_exact_replay_not_committed") else u.errorCode,
              None, None, Quarantine, true)
    else if ReviewCode(u.errorCode) then Verdict(OperatorReview, u.receipt, u.errorCode, None, None, Quarantine, true)
    else if u.retryable then
      var delay := if u.retryAfter.Some? then u.retryAfter.value else BackoffSeconds(attempt, base, jitter);
      Verdict(RetryWait, u.receipt, u.errorCode, Some(now + delay), None, NoAction, false)
    else Verdict(FailedPermanent, u.receipt, u.errorCode, None, None,
                 if u.tokenUnconsumed then Release else Quarantine, true)
  }

  function Decide(plan: Plan, mode: Mode, r: Report, attempt: nat, now: int, base: int, jitter: Option<nat>,
                  deadFenceLost: bool): Verdict
  {
    match r
    case SpoolUnusable =>
      Verdict(FailedPermanent, BatchReceipt(plan.batchId), Named("spooled_file_missing"), None, None, NoAction, false)
    case MetadataInvalid =>
      Verdict(OperatorReview, BatchReceipt(plan.batchId), Named("relay_metadata_invalid"), None, None, NoAction, false)
    case CredentialsChanged =>
      Verdict(OperatorReview, BatchReceipt(plan.batchId), Named("relay_credentials_changed"), None, None, NoAction, false)
    case PreparationFailed(retryable, review, code, retryAfter, reply) =>
      var action := if retryable then NoAction else Quarantine;
      if review then Verdict(OperatorReview, reply, code, None, None, action, true)
      else if retryable then
        var delay := if retryAfter.NoHeader? then BackoffSeconds(attempt, base, jitter) else HeaderSeconds(retryAfter).value;
        Verdict(RetryWait, reply, code, Some(now + delay), None, action, true)
      else Verdict(FailedPermanent, reply, code, None, None, action, true)
    case UploadRaised =>
      Verdict(OperatorReview, BatchReceipt(plan.batchId), Named("upload_unhandled_exception"), None, None, Quarantine, true)
    case _ => VerdictOf(plan, mode, UploadOf(plan, mode, r), attempt, now, base, jitter, deadFenceLost)
  }

  // The server answer behind a report is a committed one.
  predicate ReportsCommit(plan: Plan, mode: Mode, r: Report) {
    r.Answered? && Judge(plan, mode, r.answer).committed
  }

  // Whatever happened, a committed answer ends acknowledged or in a review
  // marked committed, an acknowledgement accounts for every row, and only an
  // uncommitted answer is ever left claimable.
  lemma VerdictIsSafe(plan: Plan, mode: Mode, r: Report, attempt: nat, now: int, base: int, jitter: Option<nat>, lost: bool)
    ensures var v := Decide(plan, mode, r, attempt, now, base, jitter, lost);
            && !v.status.Pending? && !v.status.Leased?
            && (ReportsCommit(plan, mode, r) ==>
                  v.status.Acked? || (v.status.OperatorReview? && v.receipt.localCommitted == True))
            && (v.status.Acked? ==> ReportsCommit(plan, mode, r) && Conserves(v.receipt.totals, plan.rowCount, 0))
            && (v.rotation.Some? ==> plan.runtime.Some? && Terminal(v.status) && v.action.NoAction?)
            && (v.action.Release? || v.action.ExpireDeadFence? || v.action.DisableLegacy? ==> Terminal(v.status))
  {
    if r.Answered? {
      CommittedIsNotRetryable(plan, mode, r.answer);
      SuccessConserves(plan, mode, r.answer);
    }
  }

  lemma ProductBounds(b: int, m: int, n: int)
    requires 1 <= b && 1 <= m <= n <= 5
    ensures b <= b * m <= b * n <= 5 * b
  {
    assert b * n == b * m + b * (n - m);
    assert 5 * b == b * n + b * (5 - n);
    assert b * m == b + b * (m - 1);
  }

  // The jitter stays within one base delay.
  lemma JitterBounds(delay: int, b: int, hash: nat)
    requires 1 <= b
    ensures 0 <= hash % (Min(Min(Max(1, delay / 5), b), 300) + 1) <= b
  {
    var window := Min(Min(Max(1, delay / 5), b), 300);
    assert 1 <= window <= b;
  }

  // The back-off is one base delay at first, one more with each attempt up to five,
  // and never less later.
  lemma BackoffGrows(attempt: int, base: int)
    ensures attempt <= 1 ==> BackoffSeconds(attempt, base, None) == Max(1, base)
    ensures 1 <= attempt < 5 ==> BackoffSeconds(attempt + 1, base, None) == BackoffSeconds(attempt, base, None) + Max(1, base)
    ensures 5 <= attempt ==> BackoffSeconds(attempt, base, None) == 5 * Max(1, base)
  {
  }

  // A jitter adds at most a fifth of the delay, one base delay and five minutes, or
  // one second where a fifth is less.
  lemma BackoffBounds(attempt: int, base: int, jitter: Option<nat>)
    ensures Max(1, base) <= BackoffSeconds(attempt, base, jitter) <= 6 * Max(1, base)
    ensures var delay := BackoffSeconds(attempt, base, None);
            delay <= BackoffSeconds(attempt, base, jitter) <= delay + Min(Min(Max(1, delay / 5), Max(1, base)), 300)
  {
    var b, m := Max(1, base), Min(Max(1, attempt), 5);
    ProductBounds(b, m, m);
    if jitter.Some? {
      JitterBounds(b * m, b, jitter.value);
    }
  }

  // What a retry time may be.
  predicate RetryWithin(v: Verdict, now: int, limit: int) {
    (v.status.RetryWait? <==> v.retryAt.Some?) && (v.retryAt.Some? ==> now <= v.retryAt.value <= now + limit)
  }

  lemma JudgedDelay(plan: Plan, mode: Mode, a: Answer)
    ensures Judge(plan, mode, a).retryAfter.Some? ==> Judge(plan, mode, a).retryAfter.value <= MAX_RETRY_AFTER
  {
  }

  lemma UploadRetry(plan: Plan, mode: Mode, u: UploadResult, attempt: nat, now: int, base: int, jitter: Option<nat>, lost: bool, limit: int)
    requires (u.retryAfter.Some? ==> u.retryAfter.value <= limit) && 0 <= BackoffSeconds(attempt, base, jitter) <= limit
    ensures RetryWithin(VerdictOf(plan, mode, u, attempt, now, base, jitter, lost), now, limit)
  {
  }

  // A row waits exactly when it is to be retried, never into the past, and at most
  // a day or six base delays, whichever is more.
  lemma RetryIsBounded(plan: Plan, mode: Mode, r: Report, attempt: nat, now: int, base: int, jitter: Option<nat>, lost: bool)
    ensures RetryWithin(Decide(plan, mode, r, attempt, now, base, jitter, lost), now, Max(MAX_RETRY_AFTER, 6 * Max(1, base)))
  {
    BackoffBounds(attempt, base, jitter);
    if r.SourceChanged? || r.TransportError? || r.Answered? {
      if r.Answered? {
        JudgedDelay(plan, mode, r.answer);
      }
      UploadRetry(plan, mode, UploadOf(plan, mode, r), attempt, now, base, jitter, lost, Max(MAX_RETRY_AFTER, 6 * Max(1, base)));
    }
  }
}
