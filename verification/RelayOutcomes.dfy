// What a recorded outcome guarantees, in every run of the relay: a committed
// upload is never made claimable again, and an acknowledged row accounts for
// every row of its source.
module RelayOutcomes {
  import opened Common
  import opened Receipts
  import opened ReviewEvidence
  import opened RelayQueue
  import opened RelayProtocol
  import opened RelayTokens

  // Acknowledged, or in a review the operator cannot retry.
  predicate SafelyCommitted(row: Row) {
    || row.status.Acked?
    || (row.status.OperatorReview? && row.receipt.Some? && row.receipt.value.localCommitted == True)
  }

  ghost predicate CommitsSafe(w: World) {
    forall id | id in w.committed :: id in w.queue.rows && SafelyCommitted(w.queue.rows[id])
  }

  // The source rows of an acknowledged file: all inserted or replayed, or the
  // rest quarantined and proved one by one by the operator's evidence.
  ghost predicate Accounted(q: Queue, id: RelayId)
    requires id in q.rows
  {
    var row := q.rows[id];
    && row.receipt.Some?
    && (|| Conserves(row.receipt.value.totals, row.source.rowCount, 0)
        || (&& id in q.resolutions
            && EvidenceProves(q.resolutions[id].evidence, q.resolutions[id].resolution, row.receipt.value.serverSourceFileId)
            && Conserves(row.receipt.value.totals, row.source.rowCount, |q.resolutions[id].evidence|)))
  }

  ghost predicate AcksAccounted(w: World) {
    forall id | id in w.queue.rows && w.queue.rows[id].status.Acked? :: Accounted(w.queue, id)
  }

  // ------------------------------------------------------------ single steps

  lemma FinishCommits(w: World, t: nat, v: Verdict, commits: bool, instance: nat, now: int)
    requires CommitsSafe(w) && t in w.claims && w.claims[t].relay in w.queue.rows
    requires commits ==> v.status.Acked? || (v.status.OperatorReview? && v.receipt.localCommitted == True)
    ensures CommitsSafe(FinishWith(w, t, v, commits, instance, now)) && w.committed <= FinishWith(w, t, v, commits, instance, now).committed
  {
  }

  // A step that writes no committed row.
  lemma KeptCommits(w: World, w': World)
    requires CommitsSafe(w) && w'.committed == w.committed
    requires forall id | id in w.queue.rows && SafelyCommitted(w.queue.rows[id]) :: id in w'.queue.rows && SafelyCommitted(w'.queue.rows[id])
    ensures CommitsSafe(w')
  {
  }

  // What workers, expiry and operators do leaves a safely committed row safe.
  lemma WorkersKeepCommits(w: World, t: nat, id: RelayId, source: Source, worker: string, now: int, n: int)
    requires CommitsSafe(w)
    ensures CommitsSafe(ReadIn(w, t)) && CommitsSafe(GiveBack(w, t)) && CommitsSafe(Pin(w, t)) && CommitsSafe(ReserveFor(w, t, now, n))
    ensures CommitsSafe(AddRow(w, id, source, now)) && CommitsSafe(Take(w, id, worker, now, n)) && CommitsSafe(w.(queue := ResetStale(w.queue, now)))
  {
  }

  lemma OperatorsKeepCommits(w: World, s: Step)
    requires CommitsSafe(w)
    ensures s.RetryDead? ==> CommitsSafe(Retry(w, s))
    ensures s.ResolveReview? ==> CommitsSafe(Acknowledge(w, s))
  {
  }

  lemma TrafficKeepsRows(w: World, s: Step)
    requires LeaseTraffic(s)
    ensures Traffic(w, s).queue.rows == w.queue.rows && Traffic(w, s).queue.resolutions == w.queue.resolutions
    ensures Traffic(w, s).committed == w.committed
  {
  }

  lemma StepCommits(w: World, s: Step)
    requires CommitsSafe(w)
    ensures CommitsSafe(Apply(w, s)) && w.committed <= Apply(w, s).committed
  {
    match s {
      case Finish(t, _, _, _, _, _, _, _, _) =>
        if t in w.claims && w.claims[t].relay in w.queue.rows {
          VerdictFacts(w, s);
          FinishCommits(w, t, VerdictFor(w, s), Commits(w, s), s.instance, s.now);
        }
      case RetryDead(_, _, _, _) => OperatorsKeepCommits(w, s);
      case ResolveReview(_, _, _) => OperatorsKeepCommits(w, s);
      case _ =>
        if LeaseTraffic(s) {
          TrafficKeepsRows(w, s);
        } else {
          WorkerStepCommits(w, s);
        }
    }
  }

  lemma WorkerStepCommits(w: World, s: Step)
    requires CommitsSafe(w) && !LeaseTraffic(s) && !s.Finish? && !s.RetryDead? && !s.ResolveReview?
    ensures CommitsSafe(RowStep(w, s)) && RowStep(w, s).committed == w.committed
  {
    match s {
      case Enqueue(id, source, now) => WorkersKeepCommits(w, 0, id, source, "", now, 0);
      case TakeLease(id, worker, now, expires) => if id in w.queue.rows { WorkersKeepCommits(w, 0, id, w.queue.rows[id].source, worker, now, expires); }
      case ExpireLeases(now) => KeptCommits(w, w.(queue := ResetStale(w.queue, now)));
      case ReadClaim(t) =>
      case Pause(t) =>
      case PinLegacy(t) =>
      case ReserveToken(t, now, timeout) =>
    }
  }

  lemma FinishAccounts(w: World, t: nat, v: Verdict, commits: bool, instance: nat, now: int)
    requires AcksAccounted(w) && t in w.claims && w.claims[t].relay in w.queue.rows
    requires v.status.Acked? ==> Conserves(v.receipt.totals, w.queue.rows[w.claims[t].relay].source.rowCount, 0)
    ensures AcksAccounted(FinishWith(w, t, v, commits, instance, now))
  {
  }

  // A step that leaves acknowledged rows and resolutions alone.
  lemma KeptAccounts(w: World, w': World)
    requires AcksAccounted(w) && w'.queue.resolutions == w.queue.resolutions
    requires forall id | id in w'.queue.rows && w'.queue.rows[id].status.Acked? ::
               id in w.queue.rows && w'.queue.rows[id] == w.queue.rows[id]
    ensures AcksAccounted(w')
  {
  }

  lemma ResolveAccounts(w: World, s: Step)
    requires AcksAccounted(w) && s.ResolveReview?
    ensures AcksAccounted(Acknowledge(w, s))
  {
  }

  // No acknowledged row appears, changes or goes.
  ghost predicate SameAcked(q: Queue, q': Queue) {
    && q'.resolutions == q.resolutions
    && (forall id | id in q'.rows && q'.rows[id].status.Acked? :: id in q.rows && q'.rows[id] == q.rows[id])
    && (forall id | id in q.rows && q.rows[id].status.Acked? :: id in q'.rows && q'.rows[id] == q.rows[id])
  }

  lemma OneRowSameAcked(q: Queue, q': Queue, id: RelayId)
    requires q'.resolutions == q.resolutions && id in q'.rows && q'.rows == q.rows[id := q'.rows[id]]
    requires !q'.rows[id].status.Acked? && (id in q.rows ==> !q.rows[id].status.Acked?)
    ensures SameAcked(q, q')
  {
  }

  lemma ExpirySameAcked(q: Queue, now: int)
    ensures SameAcked(q, ResetStale(q, now))
  {
  }

  lemma ClaimsSameAcked(w: World, t: nat, now: int, timeout: int)
    ensures SameAcked(w.queue, ReadIn(w, t).queue) && SameAcked(w.queue, GiveBack(w, t).queue)
    ensures SameAcked(w.queue, Pin(w, t).queue) && SameAcked(w.queue, ReserveFor(w, t, now, timeout).queue)
  {
    if Current(w, t) {
      OneRowSameAcked(w.queue, GiveBack(w, t).queue, w.claims[t].relay);
      OneRowSameAcked(w.queue, Pin(w, t).queue, w.claims[t].relay);
      if ReserveFor(w, t, now, timeout) != w {
        OneRowSameAcked(w.queue, ReserveFor(w, t, now, timeout).queue, w.claims[t].relay);
      }
    }
  }

  lemma QueueSameAcked(w: World, s: Step)
    ensures s.Enqueue? ==> SameAcked(w.queue, AddRow(w, s.id, s.source, s.now).queue)
    ensures s.TakeLease? ==> SameAcked(w.queue, Take(w, s.id, s.worker, s.now, s.expires).queue)
    ensures s.RetryDead? ==> SameAcked(w.queue, Retry(w, s).queue)
  {
    if s.Enqueue? && s.id !in w.queue.rows {
      OneRowSameAcked(w.queue, AddRow(w, s.id, s.source, s.now).queue, s.id);
    } else if s.TakeLease? && s.id in w.queue.rows && Due(w.queue.rows[s.id], s.now) {
      OneRowSameAcked(w.queue, Take(w, s.id, s.worker, s.now, s.expires).queue, s.id);
    } else if s.RetryDead? && Retry(w, s) != w {
      OneRowSameAcked(w.queue, Retry(w, s).queue, s.id);
    }
  }

  // No step but a finish or a resolution makes an acknowledged row, or changes one.
  lemma OthersKeepAcked(w: World, s: Step)
    requires !s.Finish? && !s.ResolveReview?
    ensures SameAcked(w.queue, Apply(w, s).queue)
  {
    if LeaseTraffic(s) {
      TrafficKeepsRows(w, s);
    } else if s.ExpireLeases? {
      ExpirySameAcked(w.queue, s.now);
    } else if s.ReadClaim? || s.Pause? || s.PinLegacy? {
      ClaimsSameAcked(w, s.ticket, 0, 0);
    } else if s.ReserveToken? {
      ClaimsSameAcked(w, s.ticket, s.now, s.timeout);
    } else {
      QueueSameAcked(w, s);
    }
  }

  lemma StepAccounts(w: World, s: Step)
    requires AcksAccounted(w)
    ensures AcksAccounted(Apply(w, s))
  {
    match s {
      case Finish(t, _, _, _, _, _, _, _, _) =>
        if t in w.claims && w.claims[t].relay in w.queue.rows {
          VerdictFacts(w, s);
          FinishAccounts(w, t, VerdictFor(w, s), Commits(w, s), s.instance, s.now);
        }
      case ResolveReview(_, _, _) => ResolveAccounts(w, s);
      case _ =>
        OthersKeepAcked(w, s);
        KeptAccounts(w, Apply(w, s));
    }
  }

  // ------------------------------------------------------------ main results

  lemma {:induction false} CommitsStaySafe(w: World, steps: seq<Step>)
    requires CommitsSafe(w)
    ensures CommitsSafe(Run(w, steps)) && w.committed <= Run(w, steps).committed
    decreases |steps|
  {
    if steps != [] {
      StepCommits(w, steps[0]);
      CommitsStaySafe(Apply(w, steps[0]), steps[1..]);
    }
  }

  // In every run from the empty queue, a row whose recorded answer was committed is
  // acknowledged or in a committed review, and stays unclaimable through every
  // continuation.
  lemma CommittedNeverUploadedAgain(before: seq<Step>, after: seq<Step>, id: RelayId)
    requires id in Run(INITIAL, before).committed
    ensures var q := Run(Run(INITIAL, before), after).queue;
            id in q.rows && SafelyCommitted(q.rows[id]) && !Claimable(q.rows[id].status) && !q.rows[id].status.Leased?
  {
    CommitsStaySafe(INITIAL, before);
    CommitsStaySafe(Run(INITIAL, before), after);
  }

  // The authority lets the transaction of a finish through: a rotation must find
  // the instance that presented the token, unassigned or assigned to this row; a
  // dead fence must still be the active reservation of this row.
  predicate AuthorityAccepts(a: Option<Authority>, id: RelayId, rt: Option<Runtime>, v: Verdict) {
    if v.rotation.Some? then
      rt.Some? && (a.Some? ==> a.value.instance == rt.value.instance && (a.value.assignedTo.Some? ==> a.value.assignedTo == Some(id)))
    else
      v.action.ExpireDeadFence? ==>
        && rt.Some? && a.Some? && a.value.status.Active? && a.value.assignedTo == Some(id)
        && a.value.instance == rt.value.instance && a.value.fence == Some(rt.value.fence)
  }

  lemma AcceptsExactly(a: Option<Authority>, id: RelayId, rt: Option<Runtime>, v: Verdict, instance: nat, now: int)
    ensures AuthorityAfter(a, id, rt, v, instance, now).Ok? <==> AuthorityAccepts(a, id, rt, v)
  {
  }

  // The server took the file: it answered 2xx, or its body says so.
  predicate SaysCommitted(a: Answer) {
    Ok2xx(a.statusCode) || (a.body.Some? && a.body.value.committed == True)
  }

  // A file the server took is recorded as committed, and so never uploaded again,
  // if and only if the worker's claim still holds the row, the answer is not a
  // redirect, and the authority accepts the transaction.
  lemma CommitRecordedExactly(w: World, s: Step)
    requires s.Finish? && s.ticket in w.claims && w.claims[s.ticket].relay in w.queue.rows && w.claims[s.ticket].relay !in w.committed
    requires s.report.Answered? && SaysCommitted(s.report.answer)
    ensures var id := w.claims[s.ticket].relay;
            id in Apply(w, s).committed <==>
            && Current(w, s.ticket) && !Redirect(s.report.answer.statusCode)
            && AuthorityAccepts(w.queue.authority, id, w.queue.rows[id].runtime, VerdictFor(w, s))
  {
    var id := w.claims[s.ticket].relay;
    CommittedExactly(PlanOf(id, w.queue.rows[id], s.view), s.mode, s.report.answer);
    AcceptsExactly(w.queue.authority, id, w.queue.rows[id].runtime, VerdictFor(w, s), s.instance, s.now);
  }

  lemma RedirectVerdict(w: World, s: Step)
    requires s.Finish? && s.ticket in w.claims && w.claims[s.ticket].relay in w.queue.rows && s.report.Answered?
    requires Redirect(s.report.answer.statusCode)
    ensures var v := VerdictFor(w, s); v.status.FailedPermanent? && v.action.Quarantine? && v.rotation.None? && !Commits(w, s)
  {
  }

  lemma FailedBecomesClaimable(w: World, t: nat, v: Verdict, instance: nat, now: int)
    requires Current(w, t) && v.status.FailedPermanent? && v.action.Quarantine? && v.rotation.None?
    ensures var id := w.claims[t].relay;
            var failed := FinishWith(w, t, v, false, instance, now);
            var retried := Retry(failed, RetryDead(id, false, {}, true));
            failed.queue.rows[id].status.FailedPermanent? && Claimable(retried.queue.rows[id].status) && retried.committed == w.committed
  {
  }

  // A redirect that says committed, followed by an operator retry, leaves a row
  // claimable whose file the server has already taken.
  lemma RedirectedCommitBecomesClaimable(w: World, s: Step)
    requires s.Finish? && Current(w, s.ticket) && s.report.Answered? && Redirect(s.report.answer.statusCode) && SaysCommitted(s.report.answer)
    ensures var id := w.claims[s.ticket].relay;
            var retried := Apply(Apply(w, s), RetryDead(id, false, {}, true));
            id in retried.queue.rows && Claimable(retried.queue.rows[id].status) && retried.committed == w.committed
  {
    RedirectVerdict(w, s);
    FailedBecomesClaimable(w, s.ticket, VerdictFor(w, s), s.instance, s.now);
  }

  // ------------------------------------------------------------ a lost record

  function Refusal(): Answer {
    Answer(409, Some(Payload(False, Absent, False, "", "", "", "", "", true, false, ExactCloneConflict, None, None, Missing, "", None)), NoHeader)
  }

  // A clean answer to the upload of row "a", with the rotation of its token.
  function Accepted(source: Source): Answer {
    var totals := TotalsField(Integer(source.rowCount), Integer(0), Integer(0), Integer(0));
    var lease := LeaseField("consumed", NoError, true, Integer(1), true, true, Integer(2), Some(2000));
    Answer(200, Some(Payload(True, Absent, False, "a", source.fileId, "r", "r", "accepted", true, true, NoError, Some("COMPLETE"),
                             Some(totals), Integer(source.rowCount), source.installId, Some(lease))), NoHeader)
  }

  function Clash(): Step { Finish(1, View(true, false), Observe, Answered(Refusal()), 60, None, false, 2, 0) }

  function Reissuing(): Step { ReissueIdentity(3, 200, 100, Observe) }

  // Row "b" was refused as a clone, which quarantined the scope's authority; later
  // its identity was reissued.
  ghost function Reissued(source: Source): World {
    Reserved(source).(
      queue := Reserved(source).queue.(
        rows := Reserved(source).queue.rows["b" := FinishedRow(Reserved(source).queue.rows["b"], VerdictFor(Reserved(source), Clash()))],
        authority := Some(NewAuthority(3, 200))),
      claims := map[0 := ClaimOf("a", NewRow(source, 0), "w")])
  }

  lemma ClashVerdict(source: Source)
    ensures var v := VerdictFor(Reserved(source), Clash());
            && v.code.ExactCloneConflict? && v.action.Quarantine? && v.scoped && v.rotation.None? && v.status.OperatorReview?
            && !Commits(Reserved(source), Clash())
  {
    assert "a" != "b";
  }

  lemma ClashThenReissue(source: Source, v: Verdict)
    requires v.code.ExactCloneConflict? && v.action.Quarantine? && v.scoped && v.rotation.None? && v.status.OperatorReview?
    requires v == VerdictFor(Reserved(source), Clash())
    ensures Traffic(FinishWith(Reserved(source), 1, v, false, 2, 0), Reissuing()) == Reissued(source)
  {
    assert "a" != "b";
    var clashed := FinishWith(Reserved(source), 1, v, false, 2, 0);
    assert clashed.queue.authority == Some(Quarantined(Reserved(source).queue.authority.value, v.code, 0));
    assert clashed.claims == Reissued(source).claims;
  }

  lemma ReissuedIsReachable(source: Source)
    ensures Reachable(Reissued(source))
  {
    ReservedIsReachable(source);
    assert "a" != "b";
    ClashVerdict(source);
    ReachFinish(Reserved(source), Clash());
    var v := VerdictFor(Reserved(source), Clash());
    ReachTraffic(FinishWith(Reserved(source), 1, v, false, 2, 0), Reissuing());
    ClashThenReissue(source, v);
  }

  // The clean acknowledgement of row "a".
  function Acking(source: Source): Step { Finish(0, View(true, false), Observe, Answered(Accepted(source)), 60, None, false, 4, 250) }

  lemma AcceptedIsSuccess(plan: Plan, source: Source)
    requires plan == Plan("a", source.fileId, source.installId, source.rowCount, Some(Runtime(1, 1, Granted(0), 1)), false)
    requires source.fileId != ""
    ensures var u := Judge(plan, Observe, Accepted(source));
            u.success && u.committed && u.disposition.NoDisposition? && u.rotation == Some(Rotation(2, 1, 2000))
  {
  }

  lemma AckingVerdict(source: Source)
    requires source.fileId != ""
    ensures var v := VerdictFor(Reissued(source), Acking(source));
            v.status.Acked? && v.rotation == Some(Rotation(2, 1, 2000)) && Commits(Reissued(source), Acking(source))
  {
    assert "a" != "b";
    var row := Reissued(source).queue.rows["a"];
    assert row == Reserved(source).queue.rows["a"];
    AcceptedIsSuccess(PlanOf("a", row, View(true, false)), source);
  }

  lemma AckingRollsBack(source: Source, v: Verdict)
    requires v.rotation.Some?
    ensures Current(Reissued(source), 0) && FinishWith(Reissued(source), 0, v, true, 4, 250) == Reissued(source)
    ensures Due(ResetStale(Reissued(source).queue, 300).rows["a"], 300)
  {
    assert "a" != "b";
    assert Reissued(source).queue.rows["a"] == Reserved(source).queue.rows["a"];
  }

  // It is rolled back: the world stays as it was, and once the lease expires the
  // file the server took is due for upload again.
  lemma AcknowledgementCanBeLost(source: Source)
    requires source.fileId != ""
    ensures Reachable(Reissued(source))
    ensures var w, s := Reissued(source), Acking(source);
            Current(w, 0) && Commits(w, s) && FinishClaim(w, s) == w && Due(ResetStale(w.queue, 300).rows["a"], 300)
  {
    ReissuedIsReachable(source);
    AckingVerdict(source);
    AckingRollsBack(source, VerdictFor(Reissued(source), Acking(source)));
  }

  // ------------------------------------------------------------ acknowledged rows

  lemma AckedStep(w: World, s: Step, id: RelayId)
    requires id in w.queue.rows && w.queue.rows[id].status.Acked?
    ensures id in Apply(w, s).queue.rows && Apply(w, s).queue.rows[id] == w.queue.rows[id]
  {
    if !s.Finish? && !s.ResolveReview? {
      OthersKeepAcked(w, s);
    }
  }

  // Acknowledged is absorbing: the row never changes again.
  lemma {:induction false} AckedIsAbsorbing(w: World, steps: seq<Step>, id: RelayId)
    requires id in w.queue.rows && w.queue.rows[id].status.Acked?
    ensures id in Run(w, steps).queue.rows && Run(w, steps).queue.rows[id] == w.queue.rows[id]
    decreases |steps|
  {
    if steps != [] {
      AckedStep(w, steps[0], id);
      AckedIsAbsorbing(Apply(w, steps[0]), steps[1..], id);
    }
  }

  lemma {:induction false} AccountedInEveryRun(w: World, steps: seq<Step>)
    requires AcksAccounted(w)
    ensures AcksAccounted(Run(w, steps))
    decreases |steps|
  {
    if steps != [] {
      StepAccounts(w, steps[0]);
      AccountedInEveryRun(Apply(w, steps[0]), steps[1..]);
    }
  }

  // In every run every acknowledged file has no errors and its inserted,
  // replayed and quarantined rows add up to its source; rows are quarantined only
  // behind evidence naming as many distinct events, each of them either local-only
  // or resolved by a server event of its own.
  lemma AckedRowsAreConserved(steps: seq<Step>, id: RelayId)
    requires id in Run(INITIAL, steps).queue.rows && Run(INITIAL, steps).queue.rows[id].status.Acked?
    ensures var q := Run(INITIAL, steps).queue;
            && q.rows[id].receipt.Some?
            && exists quarantined: nat ::
                 && Conserves(q.rows[id].receipt.value.totals, q.rows[id].source.rowCount, quarantined)
                 && (quarantined > 0 ==>
                       && id in q.resolutions
                       && var proofs := ProofsOf(q.resolutions[id].evidence, q.resolutions[id].resolution, q.rows[id].receipt.value.serverSourceFileId);
                       && |Identities(proofs)| == quarantined
                       && |ResolvingEvents(proofs)| + LocalOnlyCount(proofs) == quarantined)
  {
    AccountedInEveryRun(INITIAL, steps);
    var q := Run(INITIAL, steps).queue;
    assert Accounted(q, id);
    var totals, rowCount := q.rows[id].receipt.value.totals, q.rows[id].source.rowCount;
    if Conserves(totals, rowCount, 0) {
    } else {
      var ack := q.resolutions[id];
      EvidenceCounts(ProofsOf(ack.evidence, ack.resolution, q.rows[id].receipt.value.serverSourceFileId));
      assert Conserves(totals, rowCount, |ack.evidence|);
    }
  }
}
