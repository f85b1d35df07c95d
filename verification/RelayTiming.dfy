// Waiting rows wait: a row put back until a time is not leased before it, whatever
// the other workers, the operator's other actions and the token traffic do.
module RelayTiming {
  import opened Common
  import opened Receipts
  import opened RelayQueue
  import opened RelayProtocol
  import opened Verdicts

  // The row waits for time t, under this attempt count.
  predicate WaitsUntil(w: World, id: RelayId, t: int, attempts: nat) {
    && id in w.queue.rows && w.queue.rows[id].status == RetryWait
    && w.queue.rows[id].nextAttempt == Some(t) && w.queue.rows[id].attempts == attempts
  }

  // Steps taken before time t that are no operator retry of the row.
  predicate Early(s: Step, id: RelayId, t: int) {
    && (s.TakeLease? && s.id == id ==> s.now < t)
    && (s.RetryDead? ==> s.id != id)
  }

  lemma TakeWaits(w: World, id: RelayId, t: int, attempts: nat, other: RelayId, worker: string, now: int, expires: int)
    requires WaitsUntil(w, id, t, attempts) && (other == id ==> now < t)
    ensures WaitsUntil(Take(w, other, worker, now, expires), id, t, attempts)
  {
  }

  lemma WorkersLeaveIt(w: World, id: RelayId, t: int, attempts: nat, ticket: nat, now: int, timeout: int)
    requires WaitsUntil(w, id, t, attempts)
    ensures WaitsUntil(GiveBack(w, ticket), id, t, attempts) && WaitsUntil(Pin(w, ticket), id, t, attempts)
    ensures WaitsUntil(ReserveFor(w, ticket, now, timeout), id, t, attempts) && WaitsUntil(ReadIn(w, ticket), id, t, attempts)
  {
  }

  lemma FinishLeavesIt(w: World, id: RelayId, t: int, attempts: nat, ticket: nat, v: Verdict, commits: bool, instance: nat, now: int)
    requires WaitsUntil(w, id, t, attempts) && ticket in w.claims && w.claims[ticket].relay in w.queue.rows
    ensures WaitsUntil(FinishWith(w, ticket, v, commits, instance, now), id, t, attempts)
  {
  }

  lemma OthersLeaveIt(w: World, id: RelayId, t: int, attempts: nat, s: Step)
    requires WaitsUntil(w, id, t, attempts) && Early(s, id, t)
    ensures s.Enqueue? ==> WaitsUntil(AddRow(w, s.id, s.source, s.now), id, t, attempts)
    ensures s.ExpireLeases? ==> WaitsUntil(w.(queue := ResetStale(w.queue, s.now)), id, t, attempts)
    ensures s.RetryDead? ==> WaitsUntil(Retry(w, s), id, t, attempts)
    ensures s.ResolveReview? ==> WaitsUntil(Acknowledge(w, s), id, t, attempts)
    ensures LeaseTraffic(s) ==> WaitsUntil(Traffic(w, s), id, t, attempts)
  {
  }

  lemma StepWaits(w: World, id: RelayId, t: int, attempts: nat, s: Step)
    requires WaitsUntil(w, id, t, attempts) && Early(s, id, t)
    ensures WaitsUntil(Apply(w, s), id, t, attempts)
  {
    if s.TakeLease? {
      TakeWaits(w, id, t, attempts, s.id, s.worker, s.now, s.expires);
    } else if s.Finish? {
      if s.ticket in w.claims && w.claims[s.ticket].relay in w.queue.rows {
        FinishLeavesIt(w, id, t, attempts, s.ticket, VerdictFor(w, s), Commits(w, s), s.instance, s.now);
      }
    } else if s.Pause? || s.PinLegacy? || s.ReadClaim? {
      WorkersLeaveIt(w, id, t, attempts, s.ticket, 0, 0);
    } else if s.ReserveToken? {
      WorkersLeaveIt(w, id, t, attempts, s.ticket, s.now, s.timeout);
    } else {
      OthersLeaveIt(w, id, t, attempts, s);
    }
  }

  // In any run of early steps the row goes on waiting, unleased.
  lemma {:induction false} WaitingRowWaits(w: World, steps: seq<Step>, id: RelayId, t: int, attempts: nat)
    requires WaitsUntil(w, id, t, attempts) && forall n | 0 <= n < |steps| :: Early(steps[n], id, t)
    ensures WaitsUntil(Run(w, steps), id, t, attempts)
    decreases |steps|
  {
    if steps != [] {
      StepWaits(w, id, t, attempts, steps[0]);
      WaitingRowWaits(Apply(w, steps[0]), steps[1..], id, t, attempts);
    }
  }

  // When a finish says the row may be tried again: after the delay asked for, or
  // after the back-off of this attempt.
  function RetryTime(w: World, s: Step): int
    requires s.Finish? && s.ticket in w.claims
  {
    s.now + (if Asked(s.report).NoHeader? then BackoffSeconds(w.claims[s.ticket].attempt, s.base, s.jitter)
             else HeaderSeconds(Asked(s.report)).value)
  }

  lemma RetryVerdict(w: World, s: Step, t: int)
    requires s.Finish? && Current(w, s.ticket) && t == RetryTime(w, s)
    requires RetriedReport(PlanOf(w.claims[s.ticket].relay, w.queue.rows[w.claims[s.ticket].relay], s.view), s.mode, s.report)
    ensures VerdictFor(w, s).status.RetryWait? && VerdictFor(w, s).retryAt == Some(t)
  {
    var c := w.claims[s.ticket];
    var plan := PlanOf(c.relay, w.queue.rows[c.relay], s.view);
    RetriedExactly(plan, s.mode, s.report, c.attempt, s.now, s.base, s.jitter, s.deadFenceLost);
    RetryTimeExactly(plan, s.mode, s.report, c.attempt, s.now, s.base, s.jitter, s.deadFenceLost);
  }

  // A retry asks nothing of the authority that could fail.
  lemma RetryCannotFault(w: World, s: Step)
    requires s.Finish? && Current(w, s.ticket) && VerdictFor(w, s).status.RetryWait?
    ensures VerdictFor(w, s).rotation.None? && !VerdictFor(w, s).action.ExpireDeadFence?
  {
    VerdictFacts(w, s);
    var c := w.claims[s.ticket];
    ExpiredExactly(PlanOf(c.relay, w.queue.rows[c.relay], s.view), s.mode, s.report, c.attempt, s.now, s.base, s.jitter, s.deadFenceLost);
  }

  lemma FinishPutsBack(w: World, ticket: nat, v: Verdict, commits: bool, instance: nat, now: int, t: int)
    requires Current(w, ticket) && v.status.RetryWait? && v.retryAt == Some(t) && v.rotation.None? && !v.action.ExpireDeadFence?
    ensures var id := w.claims[ticket].relay;
            WaitsUntil(FinishWith(w, ticket, v, commits, instance, now), id, t, w.queue.rows[id].attempts)
  {
  }

  lemma RetryWrites(w: World, s: Step, t: int)
    requires s.Finish? && Current(w, s.ticket) && VerdictFor(w, s).status.RetryWait? && VerdictFor(w, s).retryAt == Some(t)
    ensures var id := w.claims[s.ticket].relay; WaitsUntil(Apply(w, s), id, t, w.queue.rows[id].attempts)
  {
    RetryCannotFault(w, s);
    FinishPutsBack(w, s.ticket, VerdictFor(w, s), Commits(w, s), s.instance, s.now, t);
  }

  // A finish under a current claim whose report is to be retried puts the row to
  // wait exactly until the delay asked for, or the back-off, has passed; no run of
  // early steps leases it.
  lemma RetriedRowWaits(w: World, s: Step, steps: seq<Step>, t: int)
    requires s.Finish? && Current(w, s.ticket) && t == RetryTime(w, s)
    requires RetriedReport(PlanOf(w.claims[s.ticket].relay, w.queue.rows[w.claims[s.ticket].relay], s.view), s.mode, s.report)
    requires forall n | 0 <= n < |steps| :: Early(steps[n], w.claims[s.ticket].relay, t)
    ensures var id := w.claims[s.ticket].relay;
            WaitsUntil(Run(Apply(w, s), steps), id, t, w.queue.rows[id].attempts)
  {
    RetryVerdict(w, s, t);
    RetryWrites(w, s, t);
    WaitingRowWaits(Apply(w, s), steps, w.claims[s.ticket].relay, t, w.queue.rows[w.claims[s.ticket].relay].attempts);
  }

  // From its time on the next lease step takes it.
  lemma DueRowIsLeased(w: World, id: RelayId, t: int, attempts: nat, worker: string, now: int, expires: int)
    requires WaitsUntil(w, id, t, attempts) && t <= now
    ensures var v := Take(w, id, worker, now, expires);
            id in v.queue.rows && v.queue.rows[id].status == Leased && v.queue.rows[id].attempts == attempts + 1
  {
  }
}
