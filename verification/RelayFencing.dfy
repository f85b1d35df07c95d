// Fencing of relay workers, and exactly what it needs: a claim is read back after
// the lease was committed, so it may belong to somebody else's lease.
module RelayFencing {
  import opened Common
  import opened Receipts
  import opened ReviewEvidence
  import opened RelayQueue
  import opened RelayProtocol

  // ------------------------------------------------------------ what fencing is

  predicate Leased(w: World, id: RelayId) { id in w.queue.rows && w.queue.rows[id].status.Leased? }

  // The worker's own commit made the lease the row has now.
  predicate Owns(w: World, ticket: nat, id: RelayId) {
    Leased(w, id) && id in w.holder && w.holder[id] == ticket
  }

  // Whoever passes the guard of a row's writes took the row's lease.
  ghost predicate Proper(w: World) {
    forall t | Current(w, t) :: Owns(w, t, w.claims[t].relay)
  }

  // A read-back that finds the row leased finds the attempt count its own commit
  // wrote.
  predicate TrueRead(w: World, s: Step) {
    s.ReadClaim? && s.ticket in w.unread && Leased(w, w.unread[s.ticket].relay) ==>
      w.queue.rows[w.unread[s.ticket].relay].attempts == w.unread[s.ticket].attempt
  }

  ghost predicate TrueReads(w: World, steps: seq<Step>) {
    forall n | 0 <= n < |steps| :: TrueRead(Run(w, steps[..n]), steps[n])
  }

  // ------------------------------------------------------------ the invariant

  // A lease column is set exactly on leased rows.
  predicate LeaseColumns(row: Row) {
    (row.status.Leased? <==> row.leaseOwner.Some?) && (row.leaseOwner.None? ==> row.leaseExpires.None?)
  }

  // A claim is never ahead of its row; on a leased row it is the holder's and
  // exact, or behind.
  predicate ClaimPlaced(w: World, t: nat, c: Claim) {
    && t < w.tickets && c.relay in w.queue.rows && 1 <= c.attempt <= w.queue.rows[c.relay].attempts
    && (Leased(w, c.relay) ==> if Owns(w, t, c.relay) then Holds(w.queue, c) else c.attempt < w.queue.rows[c.relay].attempts)
  }

  ghost predicate Fenced(w: World) {
    && w.unread.Keys !! w.claims.Keys
    && (forall id | id in w.queue.rows :: LeaseColumns(w.queue.rows[id]))
    && (forall t | t in w.unread :: ClaimPlaced(w, t, w.unread[t]))
    && (forall t | t in w.claims :: ClaimPlaced(w, t, w.claims[t]))
  }

  lemma FencedIsProper(w: World)
    requires Fenced(w)
    ensures Proper(w)
  {
  }

  // Rows keep their lease columns in order and their attempts, and no row becomes
  // leased; no worker moves.
  ghost predicate Quiet(w: World, w': World) {
    && w'.claims == w.claims && w'.unread == w.unread && w'.tickets == w.tickets && w'.holder == w.holder
    && (forall id | id in w.queue.rows :: id in w'.queue.rows && w'.queue.rows[id].attempts == w.queue.rows[id].attempts)
    && (forall id | id in w'.queue.rows :: LeaseColumns(w'.queue.rows[id]))
    && (forall id | id in w'.queue.rows && w'.queue.rows[id].status.Leased? ::
          id in w.queue.rows && w.queue.rows[id].status.Leased? && w'.queue.rows[id].leaseOwner == w.queue.rows[id].leaseOwner)
  }

  lemma QuietFenced(w: World, w': World)
    requires Fenced(w) && Quiet(w, w')
    ensures Fenced(w')
  {
  }

  ghost predicate RowsOk(w: World) {
    forall id | id in w.queue.rows :: LeaseColumns(w.queue.rows[id])
  }

  // Only one row changes, and it is not leased anew.
  lemma OneRowQuiet(w: World, w': World, id: RelayId)
    requires RowsOk(w) && w'.claims == w.claims && w'.unread == w.unread && w'.tickets == w.tickets && w'.holder == w.holder
    requires id in w'.queue.rows && w'.queue.rows == w.queue.rows[id := w'.queue.rows[id]] && LeaseColumns(w'.queue.rows[id])
    requires id in w.queue.rows ==> w'.queue.rows[id].attempts == w.queue.rows[id].attempts
    requires w'.queue.rows[id].status.Leased? ==>
               id in w.queue.rows && w.queue.rows[id].status.Leased? && w'.queue.rows[id].leaseOwner == w.queue.rows[id].leaseOwner
    ensures Quiet(w, w')
  {
  }

  lemma ExpiryIsQuiet(w: World, now: int)
    requires RowsOk(w)
    ensures Quiet(w, w.(queue := ResetStale(w.queue, now)))
  {
  }

  lemma RetryIsQuiet(w: World, s: Step)
    requires RowsOk(w) && s.RetryDead?
    ensures Quiet(w, Retry(w, s))
  {
    if Retry(w, s) != w {
      OneRowQuiet(w, Retry(w, s), s.id);
    }
  }

  lemma ResolveIsQuiet(w: World, s: Step)
    requires RowsOk(w) && s.ResolveReview?
    ensures Quiet(w, Acknowledge(w, s))
  {
    if Acknowledge(w, s) != w {
      OneRowQuiet(w, Acknowledge(w, s), s.id);
    }
  }

  lemma TrafficIsQuiet(w: World, s: Step)
    requires RowsOk(w) && LeaseTraffic(s)
    ensures Quiet(w, Traffic(w, s)) && Traffic(w, s).queue.rows == w.queue.rows
  {
  }

  lemma AddRowIsQuiet(w: World, id: RelayId, source: Source, now: int)
    requires RowsOk(w)
    ensures Quiet(w, AddRow(w, id, source, now))
  {
    if id !in w.queue.rows {
      OneRowQuiet(w, AddRow(w, id, source, now), id);
    }
  }

  lemma ClaimedIsQuiet(w: World, t: nat, now: int, timeout: int)
    requires RowsOk(w)
    ensures Quiet(w, Pin(w, t)) && Quiet(w, ReserveFor(w, t, now, timeout))
  {
    if Current(w, t) {
      OneRowQuiet(w, Pin(w, t), w.claims[t].relay);
    }
    if ReserveFor(w, t, now, timeout) != w {
      OneRowQuiet(w, ReserveFor(w, t, now, timeout), w.claims[t].relay);
    }
  }

  lemma QuietSteps(w: World, s: Step)
    requires RowsOk(w) && !s.Finish? && !s.Pause? && !s.TakeLease? && !s.ReadClaim?
    ensures Quiet(w, Apply(w, s))
  {
    match s {
      case ExpireLeases(now) => ExpiryIsQuiet(w, now);
      case RetryDead(_, _, _, _) => RetryIsQuiet(w, s);
      case ResolveReview(_, _, _) => ResolveIsQuiet(w, s);
      case Enqueue(id, source, now) => AddRowIsQuiet(w, id, source, now);
      case PinLegacy(t) => ClaimedIsQuiet(w, t, 0, 0);
      case ReserveToken(t, now, timeout) => ClaimedIsQuiet(w, t, now, timeout);
      case _ => TrafficIsQuiet(w, s);
    }
  }

  lemma FinishFenced(w: World, t: nat, v: Verdict, commits: bool, instance: nat, now: int)
    requires Fenced(w) && t in w.claims && w.claims[t].relay in w.queue.rows && !v.status.Leased?
    ensures Fenced(FinishWith(w, t, v, commits, instance, now))
  {
  }

  // A pause gives the attempt back; every other claim on the row is behind it.
  lemma PauseFenced(w: World, t: nat)
    requires Fenced(w)
    ensures Fenced(GiveBack(w, t))
  {
  }

  lemma TakeLeaseFenced(w: World, id: RelayId, worker: string, now: int, expires: int)
    requires Fenced(w)
    ensures Fenced(Take(w, id, worker, now, expires))
  {
  }

  // A true read-back keeps the fence.
  lemma ReadClaimFenced(w: World, t: nat)
    requires Fenced(w) && TrueRead(w, ReadClaim(t))
    ensures Fenced(ReadIn(w, t))
  {
  }

  // Any other one breaks it at once: the worker passes the guard of a lease that
  // is not its own.
  lemma LateReadIsImproper(w: World, s: Step)
    requires Fenced(w) && !TrueRead(w, s)
    ensures Current(Apply(w, s), s.ticket) && !Proper(Apply(w, s))
  {
    LateReadSteals(w, s.ticket);
  }

  lemma LateReadSteals(w: World, t: nat)
    requires Fenced(w) && !TrueRead(w, ReadClaim(t))
    ensures Current(ReadIn(w, t), t) && !Proper(ReadIn(w, t))
  {
    var c := w.unread[t];
    assert ClaimPlaced(w, t, c);
    assert Current(ReadIn(w, t), t) && !Owns(ReadIn(w, t), t, c.relay);
  }

  lemma StepFenced(w: World, s: Step)
    requires Fenced(w) && TrueRead(w, s)
    ensures Fenced(Apply(w, s))
  {
    match s {
      case Finish(t, _, _, _, _, _, _, _, _) =>
        if t in w.claims && w.claims[t].relay in w.queue.rows {
          VerdictFacts(w, s);
          FinishFenced(w, t, VerdictFor(w, s), Commits(w, s), s.instance, s.now);
        }
      case Pause(t) => PauseFenced(w, t);
      case TakeLease(id, worker, now, expires) => TakeLeaseFenced(w, id, worker, now, expires);
      case ReadClaim(t) => ReadClaimFenced(w, t);
      case _ =>
        QuietSteps(w, s);
        QuietFenced(w, Apply(w, s));
    }
  }

  // ------------------------------------------------------------ runs

  lemma {:induction false} RunFenced(w: World, steps: seq<Step>, n: nat)
    requires Fenced(w) && TrueReads(w, steps) && n <= |steps|
    ensures Fenced(Run(w, steps[..n]))
  {
    if n > 0 {
      RunFenced(w, steps, n - 1);
      RunPrefix(w, steps, n - 1);
      assert TrueRead(Run(w, steps[..n - 1]), steps[n - 1]);
      StepFenced(Run(w, steps[..n - 1]), steps[n - 1]);
    }
  }

  lemma {:induction false} ReadsAreTrue(steps: seq<Step>, n: nat)
    requires n <= |steps| && forall m | 0 <= m <= |steps| :: Proper(Run(INITIAL, steps[..m]))
    ensures TrueReads(INITIAL, steps[..n])
  {
    if n > 0 {
      ReadsAreTrue(steps, n - 1);
      assert steps[..n - 1][..n - 1] == steps[..n - 1];
      RunFenced(INITIAL, steps[..n - 1], n - 1);
      RunPrefix(INITIAL, steps, n - 1);
      var w := Run(INITIAL, steps[..n - 1]);
      if !TrueRead(w, steps[n - 1]) {
        LateReadIsImproper(w, steps[n - 1]);
      }
      forall m | 0 <= m < n
        ensures TrueRead(Run(INITIAL, steps[..n][..m]), steps[..n][m])
      {
        assert steps[..n][..m] == steps[..m] && (m < n - 1 ==> steps[..n - 1][..m] == steps[..m]);
      }
    }
  }

  // Over a whole run from the empty queue, everyone who ever passes a guard owns
  // the lease behind it if and only if every read-back that finds its row leased
  // finds the attempt count its own commit wrote.
  lemma FencingExactly(steps: seq<Step>)
    ensures (forall n | 0 <= n <= |steps| :: Proper(Run(INITIAL, steps[..n]))) <==> TrueReads(INITIAL, steps)
  {
    if TrueReads(INITIAL, steps) {
      forall n | 0 <= n <= |steps|
        ensures Proper(Run(INITIAL, steps[..n]))
      {
        RunFenced(INITIAL, steps, n);
        FencedIsProper(Run(INITIAL, steps[..n]));
      }
    }
    if forall n | 0 <= n <= |steps| :: Proper(Run(INITIAL, steps[..n])) {
      ReadsAreTrue(steps, |steps|);
      assert steps[..|steps|] == steps;
    }
  }

  // Then a row has at most one worker whose writes can reach it.
  lemma OneWorkerPasses(steps: seq<Step>, t: nat, u: nat)
    requires TrueReads(INITIAL, steps)
    requires var w := Run(INITIAL, steps); Current(w, t) && Current(w, u) && w.claims[t].relay == w.claims[u].relay
    ensures t == u
  {
    RunFenced(INITIAL, steps, |steps|);
    assert steps[..|steps|] == steps;
  }

  // ------------------------------------------------------------ a lost lease

  // The lease this worker committed is gone, read back or not.
  ghost predicate Lost(w: World, t: nat) {
    && t < w.tickets
    && (t in w.unread ==> !Owns(w, t, w.unread[t].relay))
    && (t in w.claims ==> !Owns(w, t, w.claims[t].relay))
  }

  lemma LostDoesNotHold(w: World, t: nat)
    requires Fenced(w) && Lost(w, t)
    ensures !Current(w, t)
  {
    if t in w.claims {
      assert ClaimPlaced(w, t, w.claims[t]);
    }
  }

  lemma LostIsPowerless(w: World, t: nat, s: Step)
    requires Fenced(w) && Lost(w, t)
    ensures ActsFor(s, t) ==> Apply(w, s).queue == w.queue
    ensures LeaseTraffic(s) || s == ReadClaim(t) ==> Apply(w, s).queue.rows == w.queue.rows
  {
    LostDoesNotHold(w, t);
    if LeaseTraffic(s) {
      TrafficIsQuiet(w, s);
    }
  }

  lemma LostFinish(w: World, t: nat, u: nat, v: Verdict, commits: bool, instance: nat, now: int)
    requires Fenced(w) && Lost(w, t) && u in w.claims && w.claims[u].relay in w.queue.rows && !v.status.Leased?
    ensures Lost(FinishWith(w, u, v, commits, instance, now), t)
  {
  }

  lemma LostMoves(w: World, t: nat, u: nat)
    requires Fenced(w) && Lost(w, t)
    ensures Lost(GiveBack(w, u), t) && Lost(ReadIn(w, u), t)
  {
  }

  lemma LostTake(w: World, t: nat, id: RelayId, worker: string, now: int, expires: int)
    requires Fenced(w) && Lost(w, t)
    ensures Lost(Take(w, id, worker, now, expires), t)
  {
  }

  lemma LostQuiet(w: World, w': World, t: nat)
    requires Lost(w, t) && Quiet(w, w')
    ensures Lost(w', t)
  {
  }

  lemma LostFinishStep(w: World, t: nat, s: Step)
    requires Fenced(w) && Lost(w, t) && s.Finish?
    ensures Lost(FinishClaim(w, s), t)
  {
    if s.ticket in w.claims && w.claims[s.ticket].relay in w.queue.rows {
      VerdictFacts(w, s);
      LostFinish(w, t, s.ticket, VerdictFor(w, s), Commits(w, s), s.instance, s.now);
    }
  }

  lemma LostStep(w: World, t: nat, s: Step)
    requires Fenced(w) && Lost(w, t)
    ensures Lost(Apply(w, s), t)
  {
    if s.Finish? {
      LostFinishStep(w, t, s);
    } else if s.Pause? || s.ReadClaim? {
      LostMoves(w, t, s.ticket);
    } else if s.TakeLease? {
      LostTake(w, t, s.id, s.worker, s.now, s.expires);
    } else {
      QuietSteps(w, s);
      LostQuiet(w, Apply(w, s), t);
    }
  }

  lemma {:induction false} LostRun(w: World, t: nat, steps: seq<Step>, n: nat)
    requires Fenced(w) && Lost(w, t) && TrueReads(w, steps) && n <= |steps|
    ensures Fenced(Run(w, steps[..n])) && Lost(Run(w, steps[..n]), t)
  {
    RunFenced(w, steps, n);
    if n > 0 {
      LostRun(w, t, steps, n - 1);
      RunPrefix(w, steps, n - 1);
      LostStep(Run(w, steps[..n - 1]), t, steps[n - 1]);
    }
  }

  // A worker whose lease was reset, overtaken or given back can never change the
  // queue under its claim again, nor its row by reading back or by lease traffic,
  // in any continuation with true read-backs; although a pause lowers the attempt
  // count and all workers may share one worker id.
  lemma StaleWorkerIsPowerless(w: World, steps: seq<Step>, ticket: nat, s: Step)
    requires Fenced(w) && Lost(w, ticket) && TrueReads(w, steps)
    ensures var v := Run(w, steps);
            && (ActsFor(s, ticket) ==> Apply(v, s).queue == v.queue)
            && (LeaseTraffic(s) || s == ReadClaim(ticket) ==> Apply(v, s).queue.rows == v.queue.rows)
  {
    LostRun(w, ticket, steps, |steps|);
    assert steps[..|steps|] == steps;
    LostIsPowerless(Run(w, steps), ticket, s);
  }

  // ------------------------------------------------------------ distinct attempts

  // The test a caller can make: the attempt count read is the one selected plus one.
  predicate ExactRead(w: World, s: Step) {
    s.ReadClaim? && s.ticket in w.unread && w.unread[s.ticket].relay in w.queue.rows ==>
      w.queue.rows[w.unread[s.ticket].relay].attempts == w.unread[s.ticket].attempt
  }

  ghost predicate ExactReads(w: World, steps: seq<Step>) {
    forall n | 0 <= n < |steps| :: ExactRead(Run(w, steps[..n]), steps[n])
  }

  function Outstanding(w: World): map<nat, Claim> { w.unread + w.claims }

  ghost predicate DistinctClaims(m: map<nat, Claim>) {
    forall t, u | t in m && u in m && t != u && m[t].relay == m[u].relay :: m[t].attempt != m[u].attempt
  }

  // Workers on one row carry different attempt counts, read back or not.
  ghost predicate Distinct(w: World) { DistinctClaims(Outstanding(w)) }

  // Nobody new, and nobody's row or attempt changed.
  ghost predicate Fewer(w: World, w': World) {
    forall t | t in Outstanding(w') ::
      t in Outstanding(w) && Outstanding(w')[t].relay == Outstanding(w)[t].relay && Outstanding(w')[t].attempt == Outstanding(w)[t].attempt
  }

  lemma FewerStayDistinct(w: World, w': World)
    requires Distinct(w) && Fewer(w, w')
    ensures Distinct(w')
  {
  }

  lemma NewestIsDistinct(m: map<nat, Claim>, t: nat, c: Claim)
    requires DistinctClaims(m) && forall u | u in m && m[u].relay == c.relay :: m[u].attempt < c.attempt
    ensures DistinctClaims(m[t := c])
  {
  }

  lemma AllBehind(w: World, id: RelayId, t: nat)
    requires Fenced(w) && id in w.queue.rows && t in Outstanding(w) && Outstanding(w)[t].relay == id
    ensures t < w.tickets && Outstanding(w)[t].attempt <= w.queue.rows[id].attempts
  {
    assert t in w.unread ==> ClaimPlaced(w, t, w.unread[t]);
    assert t in w.claims ==> ClaimPlaced(w, t, w.claims[t]);
  }

  lemma TicketIsNew(w: World)
    requires Fenced(w)
    ensures w.tickets !in w.unread && w.tickets !in w.claims
  {
    assert forall t | t in w.claims :: ClaimPlaced(w, t, w.claims[t]);
    assert forall t | t in w.unread :: ClaimPlaced(w, t, w.unread[t]);
  }

  // A taken lease adds one claim, ahead of all others on its row.
  lemma TakeLeaseDistinct(w: World, id: RelayId, worker: string, now: int, expires: int)
    requires Fenced(w) && Distinct(w)
    ensures Distinct(Take(w, id, worker, now, expires))
  {
    if id in w.queue.rows && Due(w.queue.rows[id], now) {
      var c := ClaimOf(id, w.queue.rows[id], worker);
      forall u | u in Outstanding(w) && Outstanding(w)[u].relay == id
        ensures Outstanding(w)[u].attempt < c.attempt
      {
        AllBehind(w, id, u);
      }
      TicketIsNew(w);
      NewestIsDistinct(Outstanding(w), w.tickets, c);
      assert Outstanding(Take(w, id, worker, now, expires)) == Outstanding(w)[w.tickets := c];
    }
  }

  lemma ReadClaimFewer(w: World, t: nat)
    requires Fenced(w) && ExactRead(w, ReadClaim(t))
    ensures Fewer(w, ReadIn(w, t))
  {
  }

  lemma LeavingFewer(w: World, w': World, t: nat)
    requires w'.unread == w.unread && (w'.claims == w.claims || w'.claims == w.claims - {t}) && w.unread.Keys !! w.claims.Keys
    ensures Fewer(w, w')
  {
  }

  lemma FinishFewer(w: World, t: nat, v: Verdict, commits: bool, instance: nat, now: int)
    requires Fenced(w) && t in w.claims && w.claims[t].relay in w.queue.rows
    ensures Fewer(w, FinishWith(w, t, v, commits, instance, now))
  {
    LeavingFewer(w, FinishWith(w, t, v, commits, instance, now), t);
  }

  lemma PauseFewer(w: World, t: nat)
    requires Fenced(w)
    ensures Fewer(w, GiveBack(w, t))
  {
    LeavingFewer(w, GiveBack(w, t), t);
  }

  lemma StepFewer(w: World, s: Step)
    requires Fenced(w) && ExactRead(w, s) && !s.TakeLease?
    ensures Fewer(w, Apply(w, s))
  {
    match s {
      case ReadClaim(t) => ReadClaimFewer(w, t);
      case Pause(t) => PauseFewer(w, t);
      case Finish(t, _, _, _, _, _, _, _, _) =>
        if t in w.claims && w.claims[t].relay in w.queue.rows {
          FinishFewer(w, t, VerdictFor(w, s), Commits(w, s), s.instance, s.now);
        }
      case _ => QuietSteps(w, s);
    }
  }

  lemma StepDistinct(w: World, s: Step)
    requires Fenced(w) && Distinct(w) && ExactRead(w, s)
    ensures Distinct(Apply(w, s))
  {
    if s.TakeLease? {
      TakeLeaseDistinct(w, s.id, s.worker, s.now, s.expires);
    } else {
      StepFewer(w, s);
      FewerStayDistinct(w, Apply(w, s));
    }
  }

  lemma {:induction false} RunDistinct(w: World, steps: seq<Step>, n: nat)
    requires Fenced(w) && Distinct(w) && ExactReads(w, steps) && n <= |steps|
    ensures Fenced(Run(w, steps[..n])) && Distinct(Run(w, steps[..n]))
  {
    if n > 0 {
      RunDistinct(w, steps, n - 1);
      RunPrefix(w, steps, n - 1);
      assert ExactRead(Run(w, steps[..n - 1]), steps[n - 1]);
      StepFenced(Run(w, steps[..n - 1]), steps[n - 1]);
      StepDistinct(Run(w, steps[..n - 1]), steps[n - 1]);
    }
  }

  // With the caller's test on every read-back, outstanding claims on one row have
  // pairwise distinct attempt counts in every run.
  lemma ClaimsStayDistinct(steps: seq<Step>, t: nat, u: nat)
    requires ExactReads(INITIAL, steps) && t != u
    requires var w := Run(INITIAL, steps); t in w.claims && u in w.claims && w.claims[t].relay == w.claims[u].relay
    ensures Run(INITIAL, steps).claims[t].attempt != Run(INITIAL, steps).claims[u].attempt
  {
    RunDistinct(INITIAL, steps, |steps|);
    assert steps[..|steps|] == steps;
    var w := Run(INITIAL, steps);
    assert Outstanding(w)[t] == w.claims[t] && Outstanding(w)[u] == w.claims[u];
  }

  // ------------------------------------------------------------ the failing run

  // Two workers with one id: the first reads back after its lease expired and the
  // second took the row.
  ghost function LateRead(source: Source): World {
    var first := Take(AddRow(INITIAL, "a", source, 0), "a", "w", 0, 300);
    var second := Take(first.(queue := ResetStale(first.queue, 300)), "a", "w", 300, 600);
    ReadIn(ReadIn(second, 1), 0)
  }

  lemma LateReadIsReachable(source: Source)
    ensures Reachable(LateRead(source))
  {
    InitialIsReachable();
    ReachAdd(INITIAL, "a", source, 0);
    var queued := AddRow(INITIAL, "a", source, 0);
    ReachTake(queued, "a", "w", 0, 300);
    var first := Take(queued, "a", "w", 0, 300);
    ReachExpiry(first, 300);
    var expired := first.(queue := ResetStale(first.queue, 300));
    ReachTake(expired, "a", "w", 300, 600);
    var second := Take(expired, "a", "w", 300, 600);
    ReachRead(second, 1);
    ReachRead(ReadIn(second, 1), 0);
  }

  lemma LateReadPasses(source: Source)
    ensures var w := LateRead(source);
            && Current(w, 0) && Current(w, 1) && w.claims[0].relay == w.claims[1].relay
            && w.claims[0].owner == w.claims[1].owner && w.claims[0].attempt == w.claims[1].attempt
  {
    var row := NewRow(source, 0);
    var first := Take(AddRow(INITIAL, "a", source, 0), "a", "w", 0, 300);
    assert first.queue.rows == map["a" := LeasedRow(row, "w", 300)];
    var second := Take(first.(queue := ResetStale(first.queue, 300)), "a", "w", 300, 600);
    assert second.queue.rows == map["a" := LeasedRow(LeasedRow(row, "w", 300), "w", 600)] && second.unread.Keys == {0, 1};
  }

  // Both pass the guard of one lease, with the same owner and attempt count.
  lemma TwoWorkersPass(source: Source)
    ensures Reachable(LateRead(source))
    ensures var w := LateRead(source);
            && Current(w, 0) && Current(w, 1) && w.claims[0].relay == w.claims[1].relay
            && w.claims[0].owner == w.claims[1].owner && w.claims[0].attempt == w.claims[1].attempt
    ensures forall steps | Run(INITIAL, steps) == LateRead(source) :: !TrueReads(INITIAL, steps)
  {
    LateReadIsReachable(source);
    LateReadPasses(source);
    forall steps | Run(INITIAL, steps) == LateRead(source)
      ensures !TrueReads(INITIAL, steps)
    {
      if TrueReads(INITIAL, steps) {
        OneWorkerPasses(steps, 0, 1);
      }
    }
  }
}
