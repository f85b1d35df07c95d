// What the drain makes of each report, told on the report's own fields: which
// uploads are retried and when, which rows are acknowledged, which fail, and what
// happens to the token.
module Verdicts {
  import opened Common
  import opened Receipts

  // ------------------------------------------------------------ answers, field by field

  predicate SaysCommitted(a: Answer) { a.body.Some? && a.body.value.committed == True }

  // Neither a success, nor a redirect, nor committed by its body.
  predicate Refused(a: Answer) { !(200 <= a.statusCode < 400) && !SaysCommitted(a) }

  // The body asks for a retry, or the status code is one of six.
  predicate AsksRetry(a: Answer) {
    || (a.body.Some? && a.body.value.retryable == True)
    || a.statusCode == 408 || a.statusCode == 429
    || a.statusCode == 500 || a.statusCode == 502 || a.statusCode == 503 || a.statusCode == 504
  }

  predicate NamesReview(a: Answer) {
    && a.body.Some?
    && (a.body.value.errorCode == ExactCloneConflict || a.body.value.errorCode == StaleFence || a.body.value.errorCode == StaleRequestToken)
  }

  // The server says in so many words that nothing was committed.
  predicate SaysUncommitted(a: Answer) { a.body.Some? && a.body.value.committed == False && a.statusCode >= 400 }

  predicate LegacyRefused(plan: Plan, mode: Mode, a: Answer) { plan.legacyReplay && mode == Enforce && SaysUncommitted(a) }

  predicate RetriedAnswer(plan: Plan, mode: Mode, a: Answer) {
    Refused(a) && AsksRetry(a) && !NamesReview(a) && !LegacyRefused(plan, mode, a)
  }

  predicate RetriedReport(plan: Plan, mode: Mode, r: Report) {
    || r == TransportError
    || (r.PreparationFailed? && r.retryable && !r.review)
    || (r.Answered? && RetriedAnswer(plan, mode, r.answer))
  }

  // A receipt for this batch and file, accepted and complete, whose rows add up.
  predicate CleanReceipt(plan: Plan, p: Payload, errors: nat, quarantined: nat) {
    && p.clientBatchId == plan.batchId != "" && p.serverSourceFileId == plan.sourceFileId != ""
    && p.requestId == p.uploadId != "" && p.status == "accepted" && p.retryable == False && p.nextRetryNull && p.errorNull
    && p.projection == Some("COMPLETE") && p.totals.Some?
    && p.totals.value.inserted.Integer? && p.totals.value.inserted.n >= 0
    && p.totals.value.replayed.Integer? && p.totals.value.replayed.n >= 0
    && p.totals.value.errors == Integer(errors) && p.totals.value.quarantined == Integer(quarantined)
    && p.totals.value.inserted.n + p.totals.value.replayed.n + errors + quarantined == plan.rowCount
  }

  ghost predicate Clean(plan: Plan, p: Payload) {
    exists e: nat, q: nat :: CleanReceipt(plan, p, e, q)
  }

  // The server watched an upload without runtime fields.
  predicate Watched(p: Payload) {
    p.lease.Some? && p.lease.value.validation == "observed" && p.lease.value.reason == Named("RUNTIME_LEASE_MISSING_OBSERVED")
  }

  // The lease of the receipt speaks of the upload's own token.
  predicate Bears(plan: Plan, p: Payload) {
    !Watched(p) && plan.runtime.Some? && p.lease.Some? && p.installId == plan.installId
  }

  // The token was consumed and its successor handed out.
  predicate Rotates(plan: Plan, p: Payload) {
    && Bears(plan, p) && p.lease.value.validation == "consumed" && p.lease.value.contractCurrent
    && p.lease.value.fence == Integer(plan.runtime.value.fence) && p.lease.value.nextSequence == Integer(plan.runtime.value.sequence + 1)
    && p.lease.value.leaseIdPresent && p.lease.value.tokenWellFormed && p.lease.value.expiresAt.Some?
  }

  predicate Rejected(plan: Plan, p: Payload) { Bears(plan, p) && p.lease.value.validation == "observed_rejected" }

  predicate DeadFenced(plan: Plan, p: Payload) {
    Rejected(plan, p) && p.lease.value.reason == StaleFence && p.lease.value.contractCurrent
  }

  // The receipt has no lease to speak of.
  predicate Leaseless(plan: Plan, p: Payload) {
    || Watched(p)
    || (plan.runtime.Some? && p.lease.None?)
    || (Rejected(plan, p) && (p.lease.value.reason == LeaseReceiptMissing || p.lease.value.reason == LeaseReceiptObservedLegacy))
  }

  // Taken as a legacy upload: the program replays it, or the server only watches.
  predicate LegacyTaken(plan: Plan, mode: Mode, p: Payload) {
    (Leaseless(plan, p) && (plan.legacyReplay || mode == Observe)) || (!Watched(p) && plan.runtime.None? && plan.legacyReplay)
  }

  // ------------------------------------------------------------ the judgements behind a verdict

  lemma CleanExactly(plan: Plan, p: Payload, errors: nat, quarantined: nat)
    ensures CommittedReceiptIssue(plan, p) == ReceiptIssue(NoError, errors, quarantined) <==> CleanReceipt(plan, p, errors, quarantined)
  {
  }

  lemma CleanCounts(plan: Plan, p: Payload)
    ensures CommittedReceiptIssue(plan, p).code.NoError? <==> Clean(plan, p)
  {
    var issue := CommittedReceiptIssue(plan, p);
    if issue.code.NoError? {
      CleanExactly(plan, p, issue.errors, issue.quarantined);
    }
    forall e: nat, q: nat | CleanReceipt(plan, p, e, q)
      ensures issue.code.NoError?
    {
      CleanExactly(plan, p, e, q);
    }
  }

  lemma LeaseExactly(plan: Plan, p: Payload)
    ensures var (rotation, code) := RuntimeReceiptResult(plan, p);
            && (rotation.Some? <==> Rotates(plan, p))
            && (rotation.Some? ==>
                  rotation.value == Rotation(plan.runtime.value.sequence + 1, plan.runtime.value.fence, p.lease.value.expiresAt.value))
            && (code.NoError? <==> Rotates(plan, p) || (!Watched(p) && plan.runtime.None?))
            && (code.LeaseReceiptMissing? || code.LeaseReceiptObservedLegacy? <==> Leaseless(plan, p))
            && (code.StaleFence? && p.lease.Some? && p.lease.value.contractCurrent <==> DeadFenced(plan, p))
  {
  }

  lemma CommittedAnswerExactly(plan: Plan, mode: Mode, statusCode: int, p: Payload)
    ensures var u := CommittedAnswer(plan, mode, statusCode, p);
            && u.committed && !u.retryable && !u.tokenUnconsumed
            && (u.rotation.Some? <==> Rotates(plan, p))
            && (u.disposition.LegacyAccepted? <==> Clean(plan, p) && LegacyTaken(plan, mode, p))
            && (u.disposition.DeadFence? <==> 200 <= statusCode < 300 && CleanReceipt(plan, p, 0, 0) && DeadFenced(plan, p))
            && (u.success <==> 200 <= statusCode < 300 && CleanReceipt(plan, p, 0, 0)
                               && (Rotates(plan, p) || LegacyTaken(plan, mode, p) || (!Watched(p) && plan.runtime.None?) || DeadFenced(plan, p)))
  {
    CleanCounts(plan, p);
    CleanExactly(plan, p, 0, 0);
    LeaseExactly(plan, p);
  }

  // Every answer that is not committed by its body.
  lemma UncommittedExactly(plan: Plan, mode: Mode, a: Answer)
    requires !SaysCommitted(a) || 300 <= a.statusCode < 400
    ensures var u := Judge(plan, mode, a);
            && !u.success && u.rotation.None? && u.disposition.NoDisposition?
            && (u.committed <==> 200 <= a.statusCode < 300)
            && (u.retryable <==> Refused(a) && AsksRetry(a))
            && (u.tokenUnconsumed <==> Refused(a) && SaysUncommitted(a))
            && (Refused(a) ==> (ReviewCode(u.errorCode) <==> NamesReview(a)))
            && (300 <= a.statusCode < 400 ==> !ReviewCode(u.errorCode))
            && (u.retryable ==> u.retryAfter == HeaderSeconds(a.retryAfter))
  {
  }

  lemma AnswerFacts(plan: Plan, mode: Mode, a: Answer)
    ensures var u := Judge(plan, mode, a);
            if SaysCommitted(a) && !(300 <= a.statusCode < 400) then
              u == CommittedAnswer(plan, mode, a.statusCode, a.body.value) && u.committed && !u.retryable && !u.tokenUnconsumed
            else
              && !u.success && u.rotation.None? && u.disposition.NoDisposition?
              && (u.committed <==> 200 <= a.statusCode < 300)
              && (u.retryable <==> Refused(a) && AsksRetry(a))
              && (u.tokenUnconsumed <==> Refused(a) && SaysUncommitted(a))
              && (Refused(a) ==> (ReviewCode(u.errorCode) <==> NamesReview(a)))
              && (300 <= a.statusCode < 400 ==> !ReviewCode(u.errorCode))
              && (u.retryable ==> u.retryAfter == HeaderSeconds(a.retryAfter))
  {
    if SaysCommitted(a) && !(300 <= a.statusCode < 400) {
      CommittedAnswerExactly(plan, mode, a.statusCode, a.body.value);
    } else {
      UncommittedExactly(plan, mode, a);
    }
  }

  // ------------------------------------------------------------ the statuses

  // A row is retried exactly after a transport error, a preparation that may be
  // retried, or a refusal that asks for it.
  lemma RetriedExactly(plan: Plan, mode: Mode, r: Report, attempt: nat, now: int, base: int, jitter: Option<nat>, lost: bool)
    ensures Decide(plan, mode, r, attempt, now, base, jitter, lost).status.RetryWait? <==> RetriedReport(plan, mode, r)
  {
    if r.Answered? {
      AnswerFacts(plan, mode, r.answer);
    }
  }

  function Asked(r: Report): RetryHeader {
    match r
    case Answered(a) => a.retryAfter
    case PreparationFailed(_, _, _, h, _) => h
    case _ => NoHeader
  }

  // The retry time is the header's delay from now, or the back-off without one.
  lemma RetryTimeExactly(plan: Plan, mode: Mode, r: Report, attempt: nat, now: int, base: int, jitter: Option<nat>, lost: bool)
    requires Decide(plan, mode, r, attempt, now, base, jitter, lost).status.RetryWait?
    ensures Decide(plan, mode, r, attempt, now, base, jitter, lost).retryAt ==
            Some(now + (if Asked(r).NoHeader? then BackoffSeconds(attempt, base, jitter) else HeaderSeconds(Asked(r)).value))
  {
    RetriedExactly(plan, mode, r, attempt, now, base, jitter, lost);
    if r.Answered? {
      AnswerFacts(plan, mode, r.answer);
    }
  }

  // A row is acknowledged exactly by a 2xx receipt that is clean with nothing in
  // error or quarantine, and whose lease rotated the token, was taken as legacy,
  // was not asked for, or died with the authority still bound.
  lemma AckedExactly(plan: Plan, mode: Mode, r: Report, attempt: nat, now: int, base: int, jitter: Option<nat>, lost: bool)
    ensures Decide(plan, mode, r, attempt, now, base, jitter, lost).status.Acked? <==>
            && r.Answered? && 200 <= r.answer.statusCode < 300 && SaysCommitted(r.answer)
            && var p := r.answer.body.value;
            CleanReceipt(plan, p, 0, 0)
            && (Rotates(plan, p) || LegacyTaken(plan, mode, p) || (!Watched(p) && plan.runtime.None?) || (DeadFenced(plan, p) && !lost))
  {
    if r.Answered? {
      AnswerFacts(plan, mode, r.answer);
      if SaysCommitted(r.answer) {
        CommittedAnswerExactly(plan, mode, r.answer.statusCode, r.answer.body.value);
      }
    }
  }

  // A row fails for good exactly on an unusable or changed file, a preparation that
  // may neither be retried nor reviewed, a redirect, or a refusal nobody asks to
  // retry or review.
  lemma FailedExactly(plan: Plan, mode: Mode, r: Report, attempt: nat, now: int, base: int, jitter: Option<nat>, lost: bool)
    ensures Decide(plan, mode, r, attempt, now, base, jitter, lost).status.FailedPermanent? <==>
            || r.SpoolUnusable? || r.SourceChanged?
            || (r.PreparationFailed? && !r.retryable && !r.review)
            || (r.Answered? && 300 <= r.answer.statusCode < 400)
            || (r.Answered? && Refused(r.answer) && !AsksRetry(r.answer) && !NamesReview(r.answer) && !LegacyRefused(plan, mode, r.answer))
  {
    if r.Answered? {
      AnswerFacts(plan, mode, r.answer);
    }
  }

  // Everything else waits for the operator.
  lemma ReviewedExactly(plan: Plan, mode: Mode, r: Report, attempt: nat, now: int, base: int, jitter: Option<nat>, lost: bool)
    ensures var v := Decide(plan, mode, r, attempt, now, base, jitter, lost);
            v.status.OperatorReview? <==> !v.status.RetryWait? && !v.status.Acked? && !v.status.FailedPermanent?
  {
    VerdictIsSafe(plan, mode, r, attempt, now, base, jitter, lost);
  }

  // ------------------------------------------------------------ the token

  // The token is given back exactly when the server said nothing was committed and
  // the row failed for good.
  lemma ReleasedExactly(plan: Plan, mode: Mode, r: Report, attempt: nat, now: int, base: int, jitter: Option<nat>, lost: bool)
    ensures var v := Decide(plan, mode, r, attempt, now, base, jitter, lost);
            v.action.Release? <==> r.Answered? && SaysUncommitted(r.answer) && v.status.FailedPermanent? && !(300 <= r.answer.statusCode < 400)
  {
    FailedExactly(plan, mode, r, attempt, now, base, jitter, lost);
    if r.Answered? {
      AnswerFacts(plan, mode, r.answer);
    }
  }

  // The successor is kept exactly when a committed answer rotates the token, and it
  // is the next in sequence under the same fence until the receipt's time.
  lemma RotatedExactly(plan: Plan, mode: Mode, r: Report, attempt: nat, now: int, base: int, jitter: Option<nat>, lost: bool)
    ensures var v := Decide(plan, mode, r, attempt, now, base, jitter, lost);
            && (v.rotation.Some? <==>
                  r.Answered? && SaysCommitted(r.answer) && !(300 <= r.answer.statusCode < 400) && Rotates(plan, r.answer.body.value))
            && (v.rotation.Some? ==>
                  v.rotation.value == Rotation(plan.runtime.value.sequence + 1, plan.runtime.value.fence, r.answer.body.value.lease.value.expiresAt.value))
  {
    if r.Answered? {
      AnswerFacts(plan, mode, r.answer);
      if SaysCommitted(r.answer) {
        CommittedAnswerExactly(plan, mode, r.answer.statusCode, r.answer.body.value);
        LeaseExactly(plan, r.answer.body.value);
      }
    }
  }

  // The identity expires exactly for a row acknowledged on a dead fence.
  lemma ExpiredExactly(plan: Plan, mode: Mode, r: Report, attempt: nat, now: int, base: int, jitter: Option<nat>, lost: bool)
    ensures var v := Decide(plan, mode, r, attempt, now, base, jitter, lost);
            v.action.ExpireDeadFence? <==> v.status.Acked? && DeadFenced(plan, r.answer.body.value)
  {
    AckedExactly(plan, mode, r, attempt, now, base, jitter, lost);
  }

  // Runtime leasing is switched off exactly by a committed, clean receipt taken as
  // legacy.
  lemma DisabledExactly(plan: Plan, mode: Mode, r: Report, attempt: nat, now: int, base: int, jitter: Option<nat>, lost: bool)
    ensures Decide(plan, mode, r, attempt, now, base, jitter, lost).action.DisableLegacy? <==>
            && r.Answered? && SaysCommitted(r.answer) && !(300 <= r.answer.statusCode < 400)
            && Clean(plan, r.answer.body.value) && LegacyTaken(plan, mode, r.answer.body.value)
  {
    if r.Answered? {
      AnswerFacts(plan, mode, r.answer);
      if SaysCommitted(r.answer) {
        CommittedAnswerExactly(plan, mode, r.answer.statusCode, r.answer.body.value);
        LeaseExactly(plan, r.answer.body.value);
      }
    }
  }

  // An answer quarantines the authority exactly when its row ends neither retried nor
  // acknowledged, and the token was neither rotated, given back nor taken as legacy.
  lemma QuarantinedExactly(plan: Plan, mode: Mode, r: Report, attempt: nat, now: int, base: int, jitter: Option<nat>, lost: bool)
    ensures var v := Decide(plan, mode, r, attempt, now, base, jitter, lost);
            v.action.Quarantine? <==>
            || (r.PreparationFailed? && !r.retryable) || r.UploadRaised? || r.SourceChanged?
            || (r.Answered? && !v.status.RetryWait? && !v.status.Acked? && v.rotation.None? && !v.action.Release? && !v.action.DisableLegacy?)
  {
  }

  lemma AnswerReceipt(plan: Plan, mode: Mode, a: Answer)
    requires a.body.Some?
    ensures Judge(plan, mode, a).receipt == ReceiptOf(a.body.value)
  {
  }

  // What is kept with the row: the answer's own receipt, marked when a committed
  // answer waits for the operator.
  lemma ReceiptKept(plan: Plan, mode: Mode, a: Answer, attempt: nat, now: int, base: int, jitter: Option<nat>, lost: bool)
    requires a.body.Some?
    ensures var v := Decide(plan, mode, Answered(a), attempt, now, base, jitter, lost);
            && v.receipt.totals == a.body.value.totals && v.receipt.committed == a.body.value.committed
            && v.receipt.requestId == a.body.value.requestId && v.receipt.serverSourceFileId == a.body.value.serverSourceFileId
            && (v.receipt.localCommitted == True || v.receipt.localCommitted == a.body.value.localCommitted)
  {
    AnswerReceipt(plan, mode, a);
  }

  // The credential scope is named, so that a quarantine finds the authority, exactly
  // once credentials were used, and not for a row merely put back by an answer.
  lemma ScopedExactly(plan: Plan, mode: Mode, r: Report, attempt: nat, now: int, base: int, jitter: Option<nat>, lost: bool)
    ensures var v := Decide(plan, mode, r, attempt, now, base, jitter, lost);
            v.scoped <==> r.PreparationFailed? || r.UploadRaised? || r.SourceChanged? || (r.Answered? && !v.status.RetryWait?)
  {
    RetriedExactly(plan, mode, r, attempt, now, base, jitter, lost);
  }

  // The code a row ends under: its preparation's, the refusal's when it names a review,
  // or the name of what went wrong here.
  lemma CodeExactly(plan: Plan, mode: Mode, r: Report, attempt: nat, now: int, base: int, jitter: Option<nat>, lost: bool)
    ensures var code := Decide(plan, mode, r, attempt, now, base, jitter, lost).code;
            && (r.PreparationFailed? ==> code == r.code)
            && (r.SpoolUnusable? ==> code == Named("spooled_file_missing"))
            && (r.MetadataInvalid? ==> code == Named("relay_metadata_invalid"))
            && (r.CredentialsChanged? ==> code == Named("relay_credentials_changed"))
            && (r.UploadRaised? ==> code == Named("upload_unhandled_exception"))
            && (r.SourceChanged? ==> code == Named("source_file_digest_mismatch"))
            && (r.TransportError? ==> code == Named("transport_error"))
            && (r.Answered? && Refused(r.answer) && NamesReview(r.answer) ==> code == r.answer.body.value.errorCode)
  {
    if r.Answered? && Refused(r.answer) && NamesReview(r.answer) {
      RefusalCode(plan, mode, r.answer);
    }
  }

  lemma RefusalCode(plan: Plan, mode: Mode, a: Answer)
    requires Refused(a) && NamesReview(a)
    ensures var u := Judge(plan, mode, a);
            u.errorCode == a.body.value.errorCode && !u.committed && !u.success && u.disposition.NoDisposition?
  {
    UncommittedExactly(plan, mode, a);
  }
}
