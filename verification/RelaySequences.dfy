// The request sequence of every token: a granted token carries the sequence its
// grant named, and each rotation the next one, whoever holds the token meanwhile.
module RelaySequences {
  import opened Common
  import opened Receipts
  import opened RelayQueue
  import opened RelayProtocol
  import opened Verdicts

  // How often the token was rotated since it was granted.
  function Rotations(t: Token): nat {
    match t
    case Granted(_) => 0
    case Rotated(previous) => Rotations(previous) + 1
  }

  // A grant the server sent: the request it answers, and the sequence it starts at.
  datatype GrantNote = GrantNote(request: nat, sequence: int)

  ghost function GrantsOf(steps: seq<Step>): set<GrantNote> {
    set i | 0 <= i < |steps| && steps[i].AcceptGrant? :: GrantNote(steps[i].key, steps[i].sequence)
  }

  predicate InStep(grants: set<GrantNote>, token: Token, sequence: nat) {
    GrantNote(Root(token), sequence - Rotations(token)) in grants
  }

  predicate RowInStep(grants: set<GrantNote>, row: Row) {
    row.runtime.Some? ==> InStep(grants, row.runtime.value.token, row.runtime.value.sequence)
  }

  predicate SlotInStep(grants: set<GrantNote>, a: Option<Authority>) {
    a.Some? && a.value.next.Some? ==> InStep(grants, a.value.next.value.token, a.value.next.value.sequence)
  }

  // Every token in the queue carries the sequence its history gives it.
  ghost predicate AllInStep(grants: set<GrantNote>, q: Queue) {
    SlotInStep(grants, q.authority) && forall id | id in q.rows :: RowInStep(grants, q.rows[id])
  }

  // ------------------------------------------------------------ single steps

  lemma RowsInStep(grants: set<GrantNote>, w: World, s: Step)
    requires AllInStep(grants, w.queue)
    ensures s.Enqueue? ==> AllInStep(grants, AddRow(w, s.id, s.source, s.now).queue)
    ensures s.ExpireLeases? ==> AllInStep(grants, ResetStale(w.queue, s.now))
    ensures s.TakeLease? ==> AllInStep(grants, Take(w, s.id, s.worker, s.now, s.expires).queue)
    ensures s.RetryDead? ==> AllInStep(grants, Retry(w, s).queue)
    ensures s.ResolveReview? ==> AllInStep(grants, Acknowledge(w, s).queue)
  {
  }

  lemma WorkerInStep(grants: set<GrantNote>, w: World, t: nat, now: int, timeout: int)
    requires AllInStep(grants, w.queue)
    ensures AllInStep(grants, ReadIn(w, t).queue) && AllInStep(grants, GiveBack(w, t).queue)
    ensures AllInStep(grants, Pin(w, t).queue) && AllInStep(grants, ReserveFor(w, t, now, timeout).queue)
  {
  }

  lemma TrafficInStep(grants: set<GrantNote>, w: World, s: Step)
    requires AllInStep(grants, w.queue) && LeaseTraffic(s) && (s.AcceptGrant? ==> GrantNote(s.key, s.sequence) in grants)
    ensures AllInStep(grants, Traffic(w, s).queue)
  {
  }

  // A rotation that continues the row's own sequence.
  predicate Continues(v: Verdict, row: Row) {
    v.rotation.Some? && row.runtime.Some? ==> v.rotation.value.sequence == row.runtime.value.sequence + 1
  }

  lemma AuthorityInStep(grants: set<GrantNote>, a: Option<Authority>, id: RelayId, row: Row, v: Verdict, instance: nat, now: int)
    requires SlotInStep(grants, a) && RowInStep(grants, row) && Continues(v, row)
    ensures var r := AuthorityAfter(a, id, row.runtime, v, instance, now); r.Ok? ==> SlotInStep(grants, r.value)
  {
  }

  lemma FinishInStep(grants: set<GrantNote>, w: World, t: nat, v: Verdict, commits: bool, instance: nat, now: int)
    requires AllInStep(grants, w.queue) && t in w.claims && w.claims[t].relay in w.queue.rows
    requires Continues(v, w.queue.rows[w.claims[t].relay])
    ensures AllInStep(grants, FinishWith(w, t, v, commits, instance, now).queue)
  {
    AuthorityInStep(grants, w.queue.authority, w.claims[t].relay, w.queue.rows[w.claims[t].relay], v, instance, now);
  }

  lemma VerdictContinues(w: World, s: Step)
    requires s.Finish? && s.ticket in w.claims && w.claims[s.ticket].relay in w.queue.rows
    ensures Continues(VerdictFor(w, s), w.queue.rows[w.claims[s.ticket].relay])
  {
    var c := w.claims[s.ticket];
    RotatedExactly(PlanOf(c.relay, w.queue.rows[c.relay], s.view), s.mode, s.report, c.attempt, s.now, s.base, s.jitter, s.deadFenceLost);
  }

  lemma StepInStep(grants: set<GrantNote>, w: World, s: Step)
    requires AllInStep(grants, w.queue) && (s.AcceptGrant? ==> GrantNote(s.key, s.sequence) in grants)
    ensures AllInStep(grants, Apply(w, s).queue)
  {
    if LeaseTraffic(s) {
      TrafficInStep(grants, w, s);
    } else if s.Finish? {
      if s.ticket in w.claims && w.claims[s.ticket].relay in w.queue.rows {
        VerdictContinues(w, s);
        FinishInStep(grants, w, s.ticket, VerdictFor(w, s), Commits(w, s), s.instance, s.now);
      }
    } else if s.ReadClaim? || s.Pause? || s.PinLegacy? {
      WorkerInStep(grants, w, s.ticket, 0, 0);
    } else if s.ReserveToken? {
      WorkerInStep(grants, w, s.ticket, s.now, s.timeout);
    } else {
      RowsInStep(grants, w, s);
    }
  }

  lemma {:induction false} RunInStep(grants: set<GrantNote>, w: World, steps: seq<Step>)
    requires AllInStep(grants, w.queue) && GrantsOf(steps) <= grants
    ensures AllInStep(grants, Run(w, steps).queue)
    decreases |steps|
  {
    if steps != [] {
      assert steps[0].AcceptGrant? ==> GrantNote(steps[0].key, steps[0].sequence) in GrantsOf(steps);
      forall i | 0 <= i < |steps[1..]| && steps[1..][i].AcceptGrant?
        ensures GrantNote(steps[1..][i].key, steps[1..][i].sequence) in GrantsOf(steps)
      {
        assert steps[i + 1] == steps[1..][i];
      }
      StepInStep(grants, w, steps[0]);
      RunInStep(grants, Apply(w, steps[0]), steps[1..]);
    }
  }

  // ------------------------------------------------------------ results

  // In every run, the token the authority keeps and the tokens the rows keep carry
  // the sequence some grant of their lineage named, plus one for every rotation.
  lemma SequencesFollowRotations(steps: seq<Step>)
    ensures AllInStep(GrantsOf(steps), Run(INITIAL, steps).queue)
  {
    RunInStep(GrantsOf(steps), INITIAL, steps);
  }

  // A finish whose answer rotates the token either finds the authority in other hands
  // and writes nothing, or leaves it with the successor: one further in sequence,
  // under the same instance and fence, until the time the receipt names, free.
  lemma RotationStored(q: Queue, c: Claim, view: View, mode: Mode, a: Answer, now: int, base: int, jitter: Option<nat>, lost: bool, instance: nat)
    requires Holds(q, c) && SaysCommitted(a) && !(300 <= a.statusCode < 400)
    requires Rotates(PlanOf(c.relay, q.rows[c.relay], view), a.body.value)
    ensures q.rows[c.relay].runtime.Some?
    ensures var rt := q.rows[c.relay].runtime.value;
            var v := Decide(PlanOf(c.relay, q.rows[c.relay], view), mode, Answered(a), c.attempt, now, base, jitter, lost);
            var elsewhere := q.authority.Some? && (q.authority.value.instance != rt.instance || q.authority.value.assignedTo !in {None, Some(c.relay)});
            match FinishTx(q, c, v, instance, now)
            case LeaseLost => false
            case RolledBack(fault) => elsewhere && fault == AuthorityMismatch
            case Written(t) =>
              && !elsewhere && t.authority.Some? && t.rows[c.relay].runtime.None?
              && t.authority.value.next == Some(Slot(Rotated(rt.token), rt.sequence + 1))
              && t.authority.value.instance == rt.instance && t.authority.value.fence == Some(rt.fence)
              && t.authority.value.expiresAt == a.body.value.lease.value.expiresAt
              && t.authority.value.assignedTo.None? && t.authority.value.pending.None? && t.authority.value.status.Active?
  {
    var plan := PlanOf(c.relay, q.rows[c.relay], view);
    RotatedExactly(plan, mode, Answered(a), c.attempt, now, base, jitter, lost);
    VerdictIsSafe(plan, mode, Answered(a), c.attempt, now, base, jitter, lost);
  }
}
