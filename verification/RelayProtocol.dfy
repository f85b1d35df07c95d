// Every interleaving of relay workers, lease expiry, operator pauses, operator
// retries and resolutions, runtime-lease traffic and server answers.
//
// A worker is a ticket; all workers may use one worker id.  It commits a lease,
// reads its claim back later, and acts under what it read.  A crash is a ticket
// that never acts again.  Server answers are arbitrary.
module RelayProtocol {
  import opened Common
  import opened Receipts
  import opened ReviewEvidence
  import opened RelayQueue

  // `unread` holds what a worker's own commit wrote, until it reads its claim
  // back into `claims`.  `holder` is the worker whose commit made a row's latest
  // lease, `committed` the rows for which a committed answer was recorded,
  // `requests` the lease-request keys used so far.
  datatype World = World(queue: Queue, unread: map<nat, Claim>, claims: map<nat, Claim>, tickets: nat,
                         holder: map<RelayId, nat>, committed: set<RelayId>, requests: set<nat>)

  const INITIAL := World(EMPTY_QUEUE, map[], map[], 0, map[], {}, {})

  datatype Step =
    | Enqueue(id: RelayId, source: Source, now: int)
    | ExpireLeases(now: int)
    | TakeLease(id: RelayId, worker: string, now: int, expires: int)
    | ReadClaim(ticket: nat)
    | Pause(ticket: nat)
    | PinLegacy(ticket: nat)
    | ReserveToken(ticket: nat, now: int, timeout: int)
    | Finish(ticket: nat, view: View, mode: Mode, report: Report, base: int, jitter: Option<nat>, deadFenceLost: bool, instance: nat, now: int)
    | AskLease(requester: Option<RelayId>, key: nat, instance: nat, now: int)
    | AcceptGrant(key: nat, fence: nat, sequence: nat, expiresAt: int, now: int)
    | RejectGrant(now: int)
    | RefuseLease(key: nat, code: Code, now: int)
    | ReissueIdentity(instance: nat, now: int, ttl: int, mode: Mode)
    | RetryDead(id: RelayId, allowReview: bool, expected: set<Code>, intact: bool)
    | ResolveReview(id: RelayId, request: ResolveRequest, filesIntact: bool)

  // The row a worker's ticket stands for, and whether its claim still holds it.
  predicate Current(w: World, ticket: nat) {
    ticket in w.claims && Holds(w.queue, w.claims[ticket])
  }

  // What a worker does to the queue under its claim.
  predicate ActsFor(s: Step, ticket: nat) {
    (s.Pause? && s.ticket == ticket) || (s.PinLegacy? && s.ticket == ticket)
    || (s.ReserveToken? && s.ticket == ticket) || (s.Finish? && s.ticket == ticket)
  }

  // What a worker, or the liveness tick, does to the authority alone.
  predicate LeaseTraffic(s: Step) {
    s.AskLease? || s.AcceptGrant? || s.RejectGrant? || s.RefuseLease? || s.ReissueIdentity?
  }

  function WithRow(q: Queue, id: RelayId, row: Row): Queue {
    q.(rows := q.rows[id := row])
  }

  function VerdictFor(w: World, s: Step): Verdict
    requires s.Finish? && s.ticket in w.claims && w.claims[s.ticket].relay in w.queue.rows
  {
    var c := w.claims[s.ticket];
    Decide(PlanOf(c.relay, w.queue.rows[c.relay], s.view), s.mode, s.report, c.attempt, s.now, s.base, s.jitter, s.deadFenceLost)
  }

  // A finish that finds its lease gone only ends the worker; one that faults
  // changes nothing, and the worker may come back with the second verdict.
  function FinishWith(w: World, t: nat, v: Verdict, commits: bool, instance: nat, now: int): World
    requires t in w.claims && w.claims[t].relay in w.queue.rows
  {
    match FinishTx(w.queue, w.claims[t], v, instance, now)
    case LeaseLost => w.(claims := w.claims - {t})
    case RolledBack(_) => w
    case Written(q) =>
      w.(queue := q, claims := w.claims - {t}, committed := if commits then w.committed + {w.claims[t].relay} else w.committed)
  }

  predicate Commits(w: World, s: Step)
    requires s.Finish? && s.ticket in w.claims && w.claims[s.ticket].relay in w.queue.rows
  {
    ReportsCommit(PlanOf(w.claims[s.ticket].relay, w.queue.rows[w.claims[s.ticket].relay], s.view), s.mode, s.report)
  }

  function FinishStep(w: World, s: Step): World
    requires s.Finish? && s.ticket in w.claims && w.claims[s.ticket].relay in w.queue.rows
  {
    FinishWith(w, s.ticket, VerdictFor(w, s), Commits(w, s), s.instance, s.now)
  }

  // What every verdict of a drain guarantees.
  lemma VerdictFacts(w: World, s: Step)
    requires s.Finish? && s.ticket in w.claims && w.claims[s.ticket].relay in w.queue.rows
    ensures var v, row := VerdictFor(w, s), w.queue.rows[w.claims[s.ticket].relay];
            && !v.status.Pending? && !v.status.Leased?
            && (Commits(w, s) ==> v.status.Acked? || (v.status.OperatorReview? && v.receipt.localCommitted == True))
            && (v.status.Acked? ==> Commits(w, s) && Conserves(v.receipt.totals, row.source.rowCount, 0))
            && (v.rotation.Some? || v.action.Release? ==> Terminal(v.status))
  {
    var c := w.claims[s.ticket];
    VerdictIsSafe(PlanOf(c.relay, w.queue.rows[c.relay], s.view), s.mode, s.report, c.attempt, s.now, s.base, s.jitter, s.deadFenceLost);
  }

  // The steps, each changing nothing when it is not enabled.

  function AddRow(w: World, id: RelayId, source: Source, now: int): World {
    if id in w.queue.rows then w else w.(queue := WithRow(w.queue, id, NewRow(source, now)))
  }

  function Take(w: World, id: RelayId, worker: string, now: int, expires: int): World {
    if id in w.queue.rows && Due(w.queue.rows[id], now) then
      var row := w.queue.rows[id];
      w.(queue := WithRow(w.queue, id, LeasedRow(row, worker, expires)),
         unread := w.unread[w.tickets := ClaimOf(id, row, worker)], tickets := w.tickets + 1, holder := w.holder[id := w.tickets])
    else w
  }

  function ReadIn(w: World, t: nat): World {
    if t in w.unread && w.unread[t].relay in w.queue.rows then
      w.(unread := w.unread - {t}, claims := w.claims[t := ReadBack(w.queue.rows[w.unread[t].relay], w.unread[t])])
    else w
  }

  function GiveBack(w: World, t: nat): World {
    if t !in w.claims then w
    else if Holds(w.queue, w.claims[t]) then
      var c := w.claims[t];
      w.(queue := WithRow(w.queue, c.relay, PausedRow(w.queue.rows[c.relay], c)), claims := w.claims - {t})
    else w.(claims := w.claims - {t})
  }

  function Pin(w: World, t: nat): World {
    if Current(w, t) then
      w.(queue := WithRow(w.queue, w.claims[t].relay, w.queue.rows[w.claims[t].relay].(legacyReplay := true)))
    else w
  }

  function ReserveFor(w: World, t: nat, now: int, timeout: int): World {
    if t in w.claims && CanReserve(w.queue, w.claims[t], now, timeout) then w.(queue := Reserve(w.queue, w.claims[t], now)) else w
  }

  function FinishClaim(w: World, s: Step): World
    requires s.Finish?
  {
    if s.ticket in w.claims && w.claims[s.ticket].relay in w.queue.rows then FinishStep(w, s) else w
  }

  function Ask(w: World, requester: Option<RelayId>, key: nat, instance: nat, now: int): World {
    if key !in w.requests && CanRequest(w.queue, requester)
    then w.(queue := RequestLease(w.queue, key, instance, now), requests := w.requests + {key}) else w
  }

  function Retry(w: World, s: Step): World
    requires s.RetryDead?
  {
    if CanRetry(w.queue, s.id, s.allowReview, s.expected, s.intact)
    then w.(queue := WithRow(w.queue, s.id, RetriedRow(w.queue.rows[s.id]))) else w
  }

  ghost function Acknowledge(w: World, s: Step): World
    requires s.ResolveReview?
  {
    if CanResolve(w.queue, s.id, s.request, s.filesIntact) then w.(queue := Resolve(w.queue, s.id, s.request)) else w
  }

  // What the worker or operator of a row does.
  ghost function RowStep(w: World, s: Step): World
    requires !LeaseTraffic(s)
  {
    if s.Enqueue? then AddRow(w, s.id, s.source, s.now)
    else if s.ExpireLeases? then w.(queue := ResetStale(w.queue, s.now))
    else if s.TakeLease? then Take(w, s.id, s.worker, s.now, s.expires)
    else if s.ReadClaim? then ReadIn(w, s.ticket)
    else if s.Pause? then GiveBack(w, s.ticket)
    else if s.PinLegacy? then Pin(w, s.ticket)
    else if s.ReserveToken? then ReserveFor(w, s.ticket, s.now, s.timeout)
    else if s.Finish? then FinishClaim(w, s)
    else if s.RetryDead? then Retry(w, s)
    else Acknowledge(w, s)
  }

  // What lease traffic does to the authority.
  function Traffic(w: World, s: Step): World
    requires LeaseTraffic(s)
  {
    if s.AskLease? then Ask(w, s.requester, s.key, s.instance, s.now)
    else w.(queue := if s.AcceptGrant? then Grant(w.queue, s.key, s.fence, s.sequence, s.expiresAt, s.now)
                     else if s.RejectGrant? then GrantInvalid(w.queue, s.now)
                     else if s.RefuseLease? then LeaseRefused(w.queue, s.key, s.code, s.now)
                     else Reissue(w.queue, s.instance, s.now, s.ttl, s.mode))
  }

  ghost function Apply(w: World, s: Step): World {
    if LeaseTraffic(s) then Traffic(w, s) else RowStep(w, s)
  }

  ghost function Run(w: World, steps: seq<Step>): World
    decreases |steps|
  {
    if steps == [] then w else Run(Apply(w, steps[0]), steps[1..])
  }

  lemma {:induction false} RunExtends(w: World, steps: seq<Step>, s: Step)
    ensures Run(w, steps + [s]) == Apply(Run(w, steps), s)
    decreases |steps|
  {
    if steps == [] {
      assert Run(Apply(w, s), [s][1..]) == Apply(w, s);
    } else {
      assert (steps + [s])[1..] == steps[1..] + [s];
      RunExtends(Apply(w, steps[0]), steps[1..], s);
    }
  }

  lemma RunPrefix(w: World, steps: seq<Step>, n: nat)
    requires n < |steps|
    ensures Run(w, steps[..n + 1]) == Apply(Run(w, steps[..n]), steps[n])
  {
    RunExtends(w, steps[..n], steps[n]);
    assert steps[..n + 1] == steps[..n] + [steps[n]];
  }

  // ------------------------------------------------------------ reachable worlds

  ghost predicate Reachable(w: World) {
    exists steps: seq<Step> :: Run(INITIAL, steps) == w
  }

  lemma Reach(w: World, s: Step)
    requires Reachable(w)
    ensures Reachable(Apply(w, s))
  {
    var steps: seq<Step> :| Run(INITIAL, steps) == w;
    RunExtends(INITIAL, steps, s);
  }

  lemma ReachTake(w: World, id: RelayId, worker: string, now: int, expires: int)
    requires Reachable(w)
    ensures Reachable(Take(w, id, worker, now, expires))
  {
    Reach(w, TakeLease(id, worker, now, expires));
  }

  lemma ReachRead(w: World, t: nat)
    requires Reachable(w)
    ensures Reachable(ReadIn(w, t))
  {
    Reach(w, ReadClaim(t));
  }

  lemma ReachExpiry(w: World, now: int)
    requires Reachable(w)
    ensures Reachable(w.(queue := ResetStale(w.queue, now)))
  {
    Reach(w, ExpireLeases(now));
  }

  lemma ReachAdd(w: World, id: RelayId, source: Source, now: int)
    requires Reachable(w)
    ensures Reachable(AddRow(w, id, source, now))
  {
    Reach(w, Enqueue(id, source, now));
  }

  lemma ReachReserve(w: World, t: nat, now: int, timeout: int)
    requires Reachable(w)
    ensures Reachable(ReserveFor(w, t, now, timeout))
  {
    Reach(w, ReserveToken(t, now, timeout));
  }

  lemma ReachTraffic(w: World, s: Step)
    requires Reachable(w) && LeaseTraffic(s)
    ensures Reachable(Traffic(w, s))
  {
    Reach(w, s);
  }

  lemma ReachFinish(w: World, s: Step)
    requires Reachable(w) && s.Finish? && s.ticket in w.claims && w.claims[s.ticket].relay in w.queue.rows
    ensures Reachable(FinishWith(w, s.ticket, VerdictFor(w, s), Commits(w, s), s.instance, s.now))
  {
    Reach(w, s);
  }

  lemma InitialIsReachable()
    ensures Reachable(INITIAL)
  {
    assert Run(INITIAL, []) == INITIAL;
  }
}
