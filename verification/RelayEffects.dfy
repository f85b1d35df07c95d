// What each transaction does to the authority and to a row, field by field: when a
// token is handed out, asked for, granted or dropped, and what a finish leaves.
module RelayEffects {
  import opened Common
  import opened Receipts
  import opened ReviewEvidence
  import opened RelayQueue
  import opened RelayProtocol

  // ------------------------------------------------------------ a row gets a token

  // The claim holds a row that wants a token: not pinned as legacy, and without one.
  predicate Wants(w: World, t: nat) {
    && t in w.claims && w.claims[t].relay in w.queue.rows
    && var row := w.queue.rows[w.claims[t].relay];
    && row.status == Leased && row.leaseOwner == Some(w.claims[t].owner) && row.attempts == w.claims[t].attempt
    && !row.legacyReplay && row.runtime == None
  }

  // The authority has a token free, and it outlives the upload.
  predicate Offers(q: Queue, now: int, timeout: int) {
    && q.authority.Some?
    && var a := q.authority.value;
    && a.next.Some? && a.fence.Some? && a.pending.None? && a.assignedTo.None? && (a.status == Active || a.status == Awaiting)
    && a.expiresAt.Some? && a.expiresAt.value > now + 60 && a.expiresAt.value > now + timeout + 30
  }

  lemma ReservedExactly(w: World, t: nat, now: int, timeout: int)
    ensures var v := ReserveFor(w, t, now, timeout);
            && (v != w <==> Wants(w, t) && Offers(w.queue, now, timeout))
            && (v != w ==>
                  var id, a, b := w.claims[t].relay, w.queue.authority.value, v.queue.authority;
                  && v.queue.rows == w.queue.rows[id := w.queue.rows[id].(runtime := v.queue.rows[id].runtime)]
                  && v.queue.rows[id].runtime == Some(Runtime(a.instance, a.fence.value, a.next.value.token, a.next.value.sequence))
                  && b == Some(Authority(a.instance, a.fence, None, a.expiresAt, Some(id), None, Active, a.code, now)))
  {
    if Wants(w, t) && Offers(w.queue, now, timeout) {
      var id := w.claims[t].relay;
      assert ReserveFor(w, t, now, timeout).queue.rows[id].runtime.Some?;
    }
  }

  // A worker that pauses gives its row back as it found it, waiting or pending, one
  // attempt less; a worker whose claim is gone changes nothing but itself.
  lemma GivenBackExactly(w: World, t: nat)
    requires t in w.claims
    ensures var v, c := GiveBack(w, t), w.claims[t];
            && v.claims == w.claims - {t} && v.queue.authority == w.queue.authority && v.queue.resolutions == w.queue.resolutions
            && (!Holds(w.queue, c) ==> v.queue == w.queue)
            && (Holds(w.queue, c) ==>
                  && v.queue.rows.Keys == w.queue.rows.Keys
                  && (forall id | id in w.queue.rows && id != c.relay :: v.queue.rows[id] == w.queue.rows[id])
                  && var row := w.queue.rows[c.relay];
                  v.queue.rows[c.relay] == Row(if c.previous == RetryWait then RetryWait else Pending, None, None,
                                               if row.attempts == 0 then 0 else row.attempts - 1,
                                               if c.previous == RetryWait then c.previousNext else None,
                                               Named("operator_paused"), row.receipt, row.runtime, row.legacyReplay, row.source))
  {
  }

  // ------------------------------------------------------------ lease traffic

  // No request is under way, the authority is neither reviewed nor switched off, and
  // its token is not out, or is out to the very row that asks and never got it.
  predicate MayAsk(q: Queue, requester: Option<RelayId>) {
    q.authority.None?
    || (var a := q.authority.value;
        && a.pending.None? && (a.status == Active || a.status == Awaiting)
        && (a.assignedTo.None?
            || (requester == a.assignedTo && a.assignedTo.value in q.rows && q.rows[a.assignedTo.value].runtime.None?)))
  }

  lemma AskedExactly(w: World, requester: Option<RelayId>, key: nat, instance: nat, now: int)
    ensures var v := Ask(w, requester, key, instance, now);
            && (v != w <==> key !in w.requests && MayAsk(w.queue, requester))
            && (v != w ==>
                  && v.queue.rows == w.queue.rows && key in v.requests && v.queue.authority.Some?
                  && var b := v.queue.authority.value;
                  && b.status == Awaiting && b.updatedAt == now && b.pending.Some? && b.pending.value.key == key
                  && (w.queue.authority.None? ==> b == Authority(instance, None, None, None, None, b.pending, Awaiting, NoError, now) && !b.pending.value.renewal)
                  && (w.queue.authority.Some? ==>
                        var a := w.queue.authority.value;
                        && b == a.(pending := b.pending, status := Awaiting, updatedAt := now)
                        && (b.pending.value.renewal <==> a.next.Some? && a.fence.Some?)))
  {
    if key !in w.requests && MayAsk(w.queue, requester) {
      assert key in Ask(w, requester, key, instance, now).requests;
    }
  }

  // A grant is taken exactly when it answers the request under way and no row holds a
  // token; the other answers put the authority to review, and keep what it holds.
  lemma GrantedExactly(q: Queue, key: nat, fence: nat, sequence: nat, expiresAt: int, code: Code, now: int)
    ensures var answers := q.authority.Some? && q.authority.value.pending.Some? && q.authority.value.pending.value.key == key;
            && Grant(q, key, fence, sequence, expiresAt, now) ==
               (if answers && q.authority.value.assignedTo.None?
                then q.(authority := Some(Authority(q.authority.value.instance, Some(fence), Some(Slot(Granted(key), sequence)),
                                                    Some(expiresAt), None, None, Active, NoError, now))) else q)
            && LeaseRefused(q, key, code, now) ==
               (if answers then q.(authority := Some(q.authority.value.(status := InReview, code := code, updatedAt := now))) else q)
  {
  }

  // An identity is thrown away exactly when leasing is to be resumed after it was
  // switched off, when its review is provably over, or when it ran out unused.
  predicate Spent(a: Authority, now: int, ttl: int, mode: Mode) {
    || (a.status == LegacyDisabled && mode == Enforce)
    || (a.status == InReview && a.assignedTo.None?
        && (|| (a.code == ExactCloneConflict && now >= a.updatedAt + ttl)
            || (a.code == MetadataInvalidBeforePost && a.pending.None? && a.next.None? && a.fence.Some?
                && a.expiresAt.Some? && now >= a.expiresAt.value)
            || (a.code == StaleFence && a.pending.Some? && a.pending.value.renewal)))
    || (a.status != InReview && a.assignedTo.None? && a.pending.None? && a.expiresAt.Some? && now >= a.expiresAt.value)
  }

  lemma ReissuedExactly(q: Queue, instance: nat, now: int, ttl: int, mode: Mode)
    ensures Reissue(q, instance, now, ttl, mode) ==
            if q.authority.Some? && Spent(q.authority.value, now, ttl, mode)
            then q.(authority := Some(Authority(instance, None, None, None, None, None, Awaiting, NoError, now))) else q
  {
  }

  // ------------------------------------------------------------ a finish

  // Every finish that writes leaves the row with its verdict and without a lease, and
  // without its token if it is terminal; every other row is left alone.
  lemma FinishedRowExactly(q: Queue, c: Claim, v: Verdict, instance: nat, now: int)
    requires FinishTx(q, c, v, instance, now).Written?
    ensures var t := FinishTx(q, c, v, instance, now).queue;
            && c.relay in q.rows && t.rows.Keys == q.rows.Keys && t.resolutions == q.resolutions
            && (forall id | id in q.rows && id != c.relay :: t.rows[id] == q.rows[id])
            && var before, after := q.rows[c.relay], t.rows[c.relay];
            && before.status == Leased && before.leaseOwner == Some(c.owner) && before.attempts == c.attempt
            && after == Row(v.status, None, None, before.attempts, v.retryAt, v.code, Some(v.receipt),
                           if v.status == Acked || v.status == OperatorReview || v.status == FailedPermanent then None else before.runtime,
                           before.legacyReplay, before.source)
  {
  }

  // The token is out to this row, under the instance and fence the row knows.
  predicate Carries(q: Queue, id: RelayId) {
    && q.authority.Some? && id in q.rows && q.rows[id].runtime.Some?
    && var a, rt := q.authority.value, q.rows[id].runtime.value;
    a.assignedTo == Some(id) && a.instance == rt.instance && a.fence == Some(rt.fence)
  }

  // A token given back is the authority's again, unspent and under its old sequence; of
  // a token that is out to another row nothing changes; and a row that cannot show the
  // instance and fence it was lent under puts the authority to review.
  lemma ReleaseStored(q: Queue, c: Claim, v: Verdict, instance: nat, now: int)
    requires Holds(q, c) && v.rotation.None? && v.action.Release?
    ensures FinishTx(q, c, v, instance, now).Written?
    ensures var b, kept := FinishTx(q, c, v, instance, now).queue.authority, q.rows[c.relay].runtime;
            if kept.None? then
              b == Some(Authority(if q.authority.Some? then q.authority.value.instance else instance, if q.authority.Some? then q.authority.value.fence else None,
                                  None, if q.authority.Some? then q.authority.value.expiresAt else None, None, None, InReview,
                                  Named("runtime_authority_release_metadata_invalid"), now))
            else if q.authority.None? || q.authority.value.assignedTo != Some(c.relay) then b == q.authority
            else
              var a := q.authority.value;
              b == if Carries(q, c.relay)
                   then Some(Authority(a.instance, a.fence, Some(Slot(kept.value.token, kept.value.sequence)), a.expiresAt, None, None, Active, NoError, now))
                   else Some(Authority(a.instance, a.fence, None, a.expiresAt, None, None, InReview, Named("runtime_authority_release_mismatch"), now))
  {
  }

  // A quarantine drops token, reservation and request, keeps instance, fence and expiry,
  // and says why; it reaches the authority that reserved for this row, and any other
  // one only within the credential scope.
  lemma QuarantineStored(q: Queue, c: Claim, v: Verdict, instance: nat, now: int)
    requires Holds(q, c) && v.rotation.None? && v.action.Quarantine?
    ensures FinishTx(q, c, v, instance, now).Written?
    ensures var b := FinishTx(q, c, v, instance, now).queue.authority;
            if q.authority.Some? then
              var a := q.authority.value;
              if a.assignedTo == Some(c.relay) || v.scoped
              then b == Some(Authority(a.instance, a.fence, None, a.expiresAt, None, None, InReview, v.code, now)) else b == q.authority
            else b == if v.scoped then Some(Authority(instance, None, None, None, None, None, InReview, v.code, now)) else None
  {
  }

  // Codes that put an authority to review whatever the verdict asks for.
  predicate Alarming(code: Code) {
    || code == ExactCloneConflict || code == StaleFence || code == StaleRequestToken
    || code == LeaseReceiptMissing || code == LeaseReceiptObservedLegacy || code == LeaseReceiptInvalid
  }

  // A verdict that asks nothing of the authority leaves it alone, unless its code is
  // alarming or a row ends with the token still out to it; then it is quarantined.
  lemma IdleStored(q: Queue, c: Claim, v: Verdict, instance: nat, now: int)
    requires Holds(q, c) && v.rotation.None? && v.action.NoAction?
    ensures FinishTx(q, c, v, instance, now).Written?
    ensures var stranded := q.authority.Some? && q.authority.value.assignedTo == Some(c.relay)
                            && (v.status == Acked || v.status == OperatorReview || v.status == FailedPermanent);
            FinishTx(q, c, v, instance, now).queue.authority ==
            if Alarming(v.code) || stranded then FinishTx(q, c, v.(action := Quarantine), instance, now).queue.authority else q.authority
  {
  }

  // Switching to legacy forgets everything but the instance; expiring on a dead fence
  // forgets that too, and only from an active authority that still carries this row.
  lemma ForgottenExactly(q: Queue, c: Claim, v: Verdict, instance: nat, now: int)
    requires Holds(q, c) && v.rotation.None?
    ensures v.action.DisableLegacy? ==>
              && FinishTx(q, c, v, instance, now).Written?
              && FinishTx(q, c, v, instance, now).queue.authority ==
                 Some(Authority(if q.authority.Some? then q.authority.value.instance else instance,
                                None, None, None, None, None, LegacyDisabled, Named("legacy_accepted"), now))
    ensures v.action.ExpireDeadFence? ==>
              (FinishTx(q, c, v, instance, now).Written? <==> Carries(q, c.relay) && q.authority.value.status == Active)
    ensures v.action.ExpireDeadFence? && FinishTx(q, c, v, instance, now).Written? ==>
              FinishTx(q, c, v, instance, now).queue.authority == Some(Authority(instance, None, None, None, None, None, Awaiting, NoError, now))
  {
  }

  // ------------------------------------------------------------ the operator

  // The receipt does not deny that the file was committed.
  predicate NotDenied(f: Flag) { f != Absent && f != False }

  // A row the operator may send again: its copy is intact, nobody leases it, it failed
  // for good, or it waits for review and its receipt marks nothing committed.
  predicate SendsAgain(q: Queue, s: Step)
    requires s.RetryDead?
  {
    && s.id in q.rows && s.intact
    && var row := q.rows[s.id];
    && row.leaseOwner == None && row.leaseExpires == None
    && (|| row.status == FailedPermanent
        || (s.allowReview && row.status == OperatorReview
            && (row.receipt.None? || (!NotDenied(row.receipt.value.committed) && !NotDenied(row.receipt.value.localCommitted)))))
    && (s.expected == {} || row.code in s.expected)
  }

  lemma OperatorRetryExactly(w: World, s: Step)
    requires s.RetryDead?
    ensures Retry(w, s) ==
            if SendsAgain(w.queue, s)
            then w.(queue := w.queue.(rows := w.queue.rows[s.id := Row(Pending, None, None, w.queue.rows[s.id].attempts, None, NoError, None, None,
                                                                       w.queue.rows[s.id].legacyReplay, w.queue.rows[s.id].source)]))
            else w
  {
  }

  // The receipt the server gave for exactly this batch and file: accepted, committed
  // there and here, without errors, and accounting for every source row.
  predicate Accounts(id: RelayId, r: Receipt, rq: ResolveRequest, rowCount: nat) {
    && r.committed == True && r.localCommitted == True && r.status == "accepted" && r.retryable == False
    && r.clientBatchId == id && r.requestId == rq.requestId && r.serverSourceFileId == rq.fileId
    && r.totals == Some(TotalsField(Integer(rq.inserted), Integer(rq.replayed), Integer(0), Integer(rq.quarantined)))
    && rq.errors == 0 && rq.inserted + rq.replayed + rq.quarantined == rowCount && r.declaredRows == Integer(rowCount)
  }

  // A review the operator may close: nobody leases the row, the operator named its file,
  // the receipt accounts for it, and every quarantined row is proved.
  ghost predicate Closes(q: Queue, id: RelayId, rq: ResolveRequest, filesIntact: bool) {
    && id in q.rows && id !in q.resolutions && filesIntact
    && var row := q.rows[id];
    && row.status == OperatorReview && row.leaseOwner == None && row.leaseExpires == None
    && row.source.relativePath == rq.relativePath && row.source.content == rq.content && row.source.byteLength == rq.byteLength > 0
    && row.receipt.Some? && Accounts(id, row.receipt.value, rq, row.source.rowCount)
    && |rq.evidence| == rq.quarantined > 0 && EvidenceProves(rq.evidence, rq.resolution, rq.fileId)
  }

  lemma ReceiptExactly(id: RelayId, r: Receipt, rq: ResolveRequest, rowCount: nat)
    ensures ReceiptResolvable(id, r, rq, rowCount) <==> Accounts(id, r, rq, rowCount)
  {
  }

  lemma ReviewClosesExactly(w: World, s: Step)
    requires s.ResolveReview?
    ensures Acknowledge(w, s) ==
            if Closes(w.queue, s.id, s.request, s.filesIntact)
            then w.(queue := Queue(w.queue.rows[s.id := w.queue.rows[s.id].(status := Acked)], w.queue.authority,
                                   w.queue.resolutions[s.id := Acknowledgement(s.request.resolution, s.request.evidence)]))
            else w
  {
    if s.id in w.queue.rows && w.queue.rows[s.id].receipt.Some? {
      ReceiptExactly(s.id, w.queue.rows[s.id].receipt.value, s.request, w.queue.rows[s.id].source.rowCount);
    }
  }
}
