// Who holds the rotating one-shot token, in every run of the relay.
module RelayTokens {
  import opened Common
  import opened Receipts
  import opened RelayQueue
  import opened RelayProtocol

  // The lease request a row's token descends from.
  function HeldRoot(row: Row): Option<nat> {
    if row.runtime.Some? then Some(Root(row.runtime.value.token)) else None
  }

  function AvailableRoot(q: Queue): Option<nat> {
    if q.authority.Some? && q.authority.value.next.Some? then Some(Root(q.authority.value.next.value.token)) else None
  }

  function PendingKey(q: Queue): Option<nat> {
    if q.authority.Some? && q.authority.value.pending.Some? then Some(q.authority.value.pending.value.key) else None
  }

  function AssignedRow(q: Queue): Option<RelayId> {
    if q.authority.Some? then q.authority.value.assignedTo else None
  }

  // No two rows, and no row and the authority, hold tokens of one lineage.
  ghost predicate LineagesApart(q: Queue) {
    && (forall i, j | i in q.rows && j in q.rows && i != j && HeldRoot(q.rows[i]).Some? ::
          HeldRoot(q.rows[i]) != HeldRoot(q.rows[j]))
    && (forall i | i in q.rows && HeldRoot(q.rows[i]).Some? :: HeldRoot(q.rows[i]) != AvailableRoot(q))
  }

  // Every lineage in use was requested, and the request in flight has no token yet.
  ghost predicate RootsRequested(w: World) {
    && (forall i | i in w.queue.rows && HeldRoot(w.queue.rows[i]).Some? ::
          HeldRoot(w.queue.rows[i]).value in w.requests && HeldRoot(w.queue.rows[i]) != PendingKey(w.queue))
    && (AvailableRoot(w.queue).Some? ==>
          AvailableRoot(w.queue).value in w.requests && AvailableRoot(w.queue) != PendingKey(w.queue))
    && (PendingKey(w.queue).Some? ==> PendingKey(w.queue).value in w.requests)
  }

  // The assigned row is alive and holds the token reserved under the current
  // instance and fence, and the authority has no other token or request.
  ghost predicate ReservationSound(q: Queue) {
    AssignedRow(q).Some? ==>
      var a, id := q.authority.value, AssignedRow(q).value;
      && id in q.rows && !Terminal(q.rows[id].status) && q.rows[id].runtime.Some?
      && Bound(a, id, q.rows[id].runtime.value)
      && a.next.None? && a.pending.None? && !a.status.LegacyDisabled?
  }

  ghost predicate TerminalRowsClean(q: Queue) {
    forall id | id in q.rows && Terminal(q.rows[id].status) :: q.rows[id].runtime.None?
  }

  ghost predicate TokensSound(w: World) {
    LineagesApart(w.queue) && RootsRequested(w) && ReservationSound(w.queue) && TerminalRowsClean(w.queue)
  }

  // ------------------------------------------------------------ single steps

  // Steps that move no token: every row keeps its token and stays as alive as
  // it was, and the authority keeps its token, reservation and request.
  ghost predicate TokensUntouched(w: World, w': World) {
    && w'.requests == w.requests && w'.queue.authority == w.queue.authority
    && (forall id | id in w'.queue.rows ::
          (id in w.queue.rows && w'.queue.rows[id].runtime == w.queue.rows[id].runtime
           && Terminal(w'.queue.rows[id].status) == Terminal(w.queue.rows[id].status))
          || w'.queue.rows[id].runtime.None?)
    && (forall id | id in w.queue.rows :: id in w'.queue.rows
          && (w.queue.rows[id].runtime.Some? && !Terminal(w.queue.rows[id].status) ==>
                w'.queue.rows[id].runtime.Some? && !Terminal(w'.queue.rows[id].status)))
  }

  lemma UntouchedSound(w: World, w': World)
    requires TokensSound(w) && TokensUntouched(w, w')
    ensures TokensSound(w')
  {
  }

  // Only one row changes, and neither its token nor its liveness does, unless the
  // token was gone.
  lemma OneRowUntouched(w: World, w': World, id: RelayId)
    requires w'.requests == w.requests && w'.queue.authority == w.queue.authority && id in w'.queue.rows
    requires w'.queue.rows == w.queue.rows[id := w'.queue.rows[id]]
    requires if id in w.queue.rows && w.queue.rows[id].runtime.Some?
             then w'.queue.rows[id].runtime == w.queue.rows[id].runtime && Terminal(w'.queue.rows[id].status) == Terminal(w.queue.rows[id].status)
             else w'.queue.rows[id].runtime.None?
    ensures TokensUntouched(w, w')
  {
  }

  lemma ExpiryUntouched(w: World, now: int)
    ensures TokensUntouched(w, w.(queue := ResetStale(w.queue, now)))
  {
  }

  lemma ClaimsUntouched(w: World, t: nat)
    ensures TokensUntouched(w, ReadIn(w, t)) && TokensUntouched(w, GiveBack(w, t)) && TokensUntouched(w, Pin(w, t))
  {
    if Current(w, t) {
      OneRowUntouched(w, GiveBack(w, t), w.claims[t].relay);
      OneRowUntouched(w, Pin(w, t), w.claims[t].relay);
    }
  }

  lemma AddRowUntouched(w: World, id: RelayId, source: Source, now: int)
    ensures TokensUntouched(w, AddRow(w, id, source, now))
  {
    if id !in w.queue.rows {
      OneRowUntouched(w, AddRow(w, id, source, now), id);
    }
  }

  lemma TakeUntouched(w: World, id: RelayId, worker: string, now: int, expires: int)
    ensures TokensUntouched(w, Take(w, id, worker, now, expires))
  {
    if id in w.queue.rows && Due(w.queue.rows[id], now) {
      OneRowUntouched(w, Take(w, id, worker, now, expires), id);
    }
  }

  // The operator only touches terminal rows, which hold no token.
  lemma RetryUntouched(w: World, s: Step)
    requires TerminalRowsClean(w.queue) && s.RetryDead?
    ensures TokensUntouched(w, Retry(w, s))
  {
    if Retry(w, s) != w {
      OneRowUntouched(w, Retry(w, s), s.id);
    }
  }

  lemma ResolveUntouched(w: World, s: Step)
    requires TerminalRowsClean(w.queue) && s.ResolveReview?
    ensures TokensUntouched(w, Acknowledge(w, s))
  {
    if Acknowledge(w, s) != w {
      OneRowUntouched(w, Acknowledge(w, s), s.id);
    }
  }

  lemma ReserveSound(w: World, t: nat, now: int, timeout: int)
    requires TokensSound(w)
    ensures TokensSound(ReserveFor(w, t, now, timeout))
  {
    if ReserveFor(w, t, now, timeout) != w {
      var id := w.claims[t].relay;
      var q' := ReserveFor(w, t, now, timeout).queue;
      assert HeldRoot(q'.rows[id]) == AvailableRoot(w.queue);
      assert forall i | i in q'.rows && i != id :: q'.rows[i] == w.queue.rows[i];
    }
  }

  lemma AskSound(w: World, requester: Option<RelayId>, key: nat, instance: nat, now: int)
    requires TokensSound(w)
    ensures TokensSound(Ask(w, requester, key, instance, now))
  {
    assert Ask(w, requester, key, instance, now).queue.rows == w.queue.rows;
  }

  lemma GrantSound(w: World, key: nat, fence: nat, sequence: nat, expiresAt: int, now: int)
    requires TokensSound(w)
    ensures TokensSound(w.(queue := Grant(w.queue, key, fence, sequence, expiresAt, now)))
  {
    assert Grant(w.queue, key, fence, sequence, expiresAt, now).rows == w.queue.rows;
  }

  // Requests, grants, invalid grants, refusals and reissues keep the tokens in
  // order and every reservation.
  lemma LeaseTrafficSound(w: World, s: Step)
    requires TokensSound(w) && LeaseTraffic(s)
    ensures TokensSound(Traffic(w, s))
    ensures AssignedRow(w.queue).Some? ==> AssignedRow(Traffic(w, s).queue) == AssignedRow(w.queue)
  {
    if s.AskLease? {
      AskSound(w, s.requester, s.key, s.instance, s.now);
    } else if s.AcceptGrant? {
      GrantSound(w, s.key, s.fence, s.sequence, s.expiresAt, s.now);
    } else {
      assert Traffic(w, s).queue.rows == w.queue.rows;
    }
  }

  // What a finish does to the authority: nothing, or it ends every reservation
  // and leaves at most the row's own token or its successor.
  ghost predicate AuthorityMoved(q: Queue, after: Option<Authority>, id: RelayId, terminal: bool)
    requires id in q.rows
  {
    && (after == q.authority ==> !(terminal && AssignedRow(q) == Some(id)))
    && (after != q.authority ==>
          && after.Some? && after.value.assignedTo.None? && after.value.pending.None?
          && (after.value.next.Some? ==>
                terminal && q.rows[id].runtime.Some?
                && Root(after.value.next.value.token) == Root(q.rows[id].runtime.value.token)))
  }

  lemma AuthorityMoves(q: Queue, id: RelayId, v: Verdict, instance: nat, now: int)
    requires id in q.rows && ReservationSound(q)
    requires v.rotation.Some? || v.action.Release? ==> Terminal(v.status)
    ensures var after := AuthorityAfter(q.authority, id, q.rows[id].runtime, v, instance, now);
            after.Ok? ==> AuthorityMoved(q, after.value, id, Terminal(v.status))
  {
  }

  // Any such move, with the row's token dropped when it turns terminal.
  ghost predicate TokenMoved(w: World, w': World, id: RelayId) {
    && id in w.queue.rows && w'.requests == w.requests && w'.queue.rows.Keys == w.queue.rows.Keys
    && (forall i | i in w.queue.rows && i != id :: w'.queue.rows[i] == w.queue.rows[i])
    && w'.queue.rows[id].runtime == (if Terminal(w'.queue.rows[id].status) then None else w.queue.rows[id].runtime)
    && AuthorityMoved(w.queue, w'.queue.authority, id, Terminal(w'.queue.rows[id].status))
  }

  lemma MoveKeepsLineages(w: World, w': World, id: RelayId)
    requires TokensSound(w) && TokenMoved(w, w', id)
    ensures LineagesApart(w'.queue) && RootsRequested(w')
  {
    var q, q' := w.queue, w'.queue;
    assert forall i | i in q'.rows && HeldRoot(q'.rows[i]).Some? :: HeldRoot(q'.rows[i]) == HeldRoot(q.rows[i]);
    assert AvailableRoot(q').Some? ==> AvailableRoot(q') == AvailableRoot(q) || AvailableRoot(q') == HeldRoot(q.rows[id]);
  }

  lemma MoveSound(w: World, w': World, id: RelayId)
    requires TokensSound(w) && TokenMoved(w, w', id)
    ensures TokensSound(w')
  {
    MoveKeepsLineages(w, w', id);
  }

  lemma FinishSound(w: World, t: nat, v: Verdict, commits: bool, instance: nat, now: int)
    requires TokensSound(w) && t in w.claims && w.claims[t].relay in w.queue.rows
    requires v.rotation.Some? || v.action.Release? ==> Terminal(v.status)
    ensures TokensSound(FinishWith(w, t, v, commits, instance, now))
  {
    var c := w.claims[t];
    AuthorityMoves(w.queue, c.relay, v, instance, now);
    if FinishTx(w.queue, c, v, instance, now).Written? {
      MoveSound(w, FinishWith(w, t, v, commits, instance, now), c.relay);
    }
  }

  lemma StepSound(w: World, s: Step)
    requires TokensSound(w)
    ensures TokensSound(Apply(w, s))
  {
    match s {
      case Finish(t, _, _, _, _, _, _, _, _) =>
        if t in w.claims && w.claims[t].relay in w.queue.rows {
          VerdictFacts(w, s);
          FinishSound(w, t, VerdictFor(w, s), Commits(w, s), s.instance, s.now);
        }
      case ReserveToken(t, now, timeout) => ReserveSound(w, t, now, timeout);
      case _ =>
        if LeaseTraffic(s) {
          LeaseTrafficSound(w, s);
        } else {
          RowStepUntouched(w, s);
          UntouchedSound(w, Apply(w, s));
        }
    }
  }

  lemma RowStepUntouched(w: World, s: Step)
    requires TerminalRowsClean(w.queue) && !LeaseTraffic(s) && !s.Finish? && !s.ReserveToken?
    ensures TokensUntouched(w, Apply(w, s))
  {
    match s {
      case Enqueue(id, source, now) => AddRowUntouched(w, id, source, now);
      case TakeLease(id, worker, now, expires) => TakeUntouched(w, id, worker, now, expires);
      case ExpireLeases(now) => ExpiryUntouched(w, now);
      case ReadClaim(t) => ClaimsUntouched(w, t);
      case Pause(t) => ClaimsUntouched(w, t);
      case PinLegacy(t) => ClaimsUntouched(w, t);
      case RetryDead(_, _, _, _) => RetryUntouched(w, s);
      case ResolveReview(_, _, _) => ResolveUntouched(w, s);
    }
  }

  lemma {:induction false} RunSound(w: World, steps: seq<Step>)
    requires TokensSound(w)
    ensures TokensSound(Run(w, steps))
    decreases |steps|
  {
    if steps != [] {
      StepSound(w, steps[0]);
      RunSound(Apply(w, steps[0]), steps[1..]);
    }
  }

  // ------------------------------------------------------------ main results

  // In every run a raw token has one holder: two rows never hold the same one,
  // no row holds one the authority still offers, the assigned row is alive and
  // holds its token, and no terminal row keeps one.
  lemma TokenHasOneHolder(steps: seq<Step>)
    ensures var q := Run(INITIAL, steps).queue;
            && (forall i, j | i in q.rows && j in q.rows && i != j && q.rows[i].runtime.Some? && q.rows[j].runtime.Some? ::
                  q.rows[i].runtime.value.token != q.rows[j].runtime.value.token)
            && (forall i | i in q.rows && q.rows[i].runtime.Some? && q.authority.Some? && q.authority.value.next.Some? ::
                  q.rows[i].runtime.value.token != q.authority.value.next.value.token)
            && ReservationSound(q) && TerminalRowsClean(q)
  {
    RunSound(INITIAL, steps);
    var q := Run(INITIAL, steps).queue;
    forall i, j | i in q.rows && j in q.rows && i != j && q.rows[i].runtime.Some? && q.rows[j].runtime.Some?
      ensures q.rows[i].runtime.value.token != q.rows[j].runtime.value.token
    {
      assert HeldRoot(q.rows[i]) != HeldRoot(q.rows[j]);
    }
    forall i | i in q.rows && q.rows[i].runtime.Some? && q.authority.Some? && q.authority.value.next.Some?
      ensures q.rows[i].runtime.value.token != q.authority.value.next.value.token
    {
      assert HeldRoot(q.rows[i]) != AvailableRoot(q);
    }
  }

  // The five ways an authority leaves a reservation of token t.
  predicate Applied(a: Authority, t: Token) { a.status.Active? && a.next.Some? && a.next.value.token == Rotated(t) }

  predicate Released(a: Authority, t: Token) { a.status.Active? && a.next.Some? && a.next.value.token == t }

  predicate ExpiredIdentity(a: Authority) { a.status.Awaiting? && a.next.None? }

  predicate Disabled(a: Authority) { a.status.LegacyDisabled? && a.next.None? }

  predicate InQuarantine(a: Authority) { a.status.InReview? && a.next.None? }

  function Count(b: bool): nat { if b then 1 else 0 }

  lemma {:induction false} TokenIsNotItsSuccessor(t: Token)
    ensures Rotated(t) != t
  {
    if t.Rotated? {
      TokenIsNotItsSuccessor(t.previous);
    }
  }

  // The authority part of a finish takes the reservation of row id away: the
  // owner's own rotation or action, or another row's quarantine, legacy
  // acceptance or release without a token.
  predicate VerdictEnds(q: Queue, id: RelayId, relay: RelayId, v: Verdict)
    requires AssignedRow(q) == Some(id) && relay in q.rows
  {
    var action := EffectiveAction(v, relay == id);
    if relay == id then
      v.rotation.Some? || (!action.NoAction? && (action.ExpireDeadFence? ==> q.authority.value.status.Active?))
    else
      && v.rotation.None?
      && ((action.Quarantine? && v.scoped) || action.DisableLegacy? || (action.Release? && q.rows[relay].runtime.None?))
  }

  // Exactly when a step takes the reservation away from the row that owns it.
  predicate EndsReservation(w: World, s: Step, id: RelayId)
    requires AssignedRow(w.queue) == Some(id)
  {
    s.Finish? && Current(w, s.ticket) && VerdictEnds(w.queue, id, w.claims[s.ticket].relay, VerdictFor(w, s))
  }

  lemma AuthorityEndsExactly(q: Queue, id: RelayId, relay: RelayId, v: Verdict, instance: nat, now: int)
    requires ReservationSound(q) && AssignedRow(q) == Some(id) && relay in q.rows
    ensures var after := AuthorityAfter(q.authority, relay, q.rows[relay].runtime, v, instance, now);
            (after.Ok? && (after.value.None? || after.value.value.assignedTo != Some(id))) <==> VerdictEnds(q, id, relay, v)
  {
  }

  lemma FinishEndsReservation(w: World, s: Step, id: RelayId)
    requires TokensSound(w) && AssignedRow(w.queue) == Some(id)
    requires s.Finish? && s.ticket in w.claims && w.claims[s.ticket].relay in w.queue.rows
    ensures AssignedRow(FinishStep(w, s).queue) != Some(id) <==> EndsReservation(w, s, id)
  {
    AuthorityEndsExactly(w.queue, id, w.claims[s.ticket].relay, VerdictFor(w, s), s.instance, s.now);
  }

  // No grant, refusal, reissue, expiry or operator action ends a reservation:
  // only a finish does, and exactly under `EndsReservation`.
  lemma ReservationEndsExactly(w: World, s: Step, id: RelayId)
    requires TokensSound(w) && AssignedRow(w.queue) == Some(id)
    ensures AssignedRow(Apply(w, s).queue) != Some(id) <==> EndsReservation(w, s, id)
  {
    if s.Finish? {
      if s.ticket in w.claims && w.claims[s.ticket].relay in w.queue.rows {
        FinishEndsReservation(w, s, id);
      }
    }
  }

  // The reservation of token t is gone, in exactly one of the five ways.
  predicate EndedOnce(a: Option<Authority>, t: Token) {
    && a.Some? && a.value.assignedTo.None?
    && Count(Applied(a.value, t)) + Count(Released(a.value, t)) + Count(ExpiredIdentity(a.value))
       + Count(Disabled(a.value)) + Count(InQuarantine(a.value)) == 1
  }

  lemma AuthorityEndsOnce(q: Queue, id: RelayId, v: Verdict, instance: nat, now: int)
    requires ReservationSound(q) && AssignedRow(q) == Some(id) && Terminal(v.status)
    ensures var after := AuthorityAfter(q.authority, id, q.rows[id].runtime, v, instance, now);
            after.Ok? ==> EndedOnce(after.value, q.rows[id].runtime.value.token)
  {
    TokenIsNotItsSuccessor(q.rows[id].runtime.value.token);
  }

  lemma OwnFinishEndsReservation(w: World, s: Step, id: RelayId)
    requires TokensSound(w) && AssignedRow(w.queue) == Some(id)
    requires s.Finish? && s.ticket in w.claims && w.claims[s.ticket].relay == id
    requires Terminal(FinishStep(w, s).queue.rows[id].status)
    ensures EndedOnce(FinishStep(w, s).queue.authority, w.queue.rows[id].runtime.value.token)
  {
    if Terminal(VerdictFor(w, s).status) {
      AuthorityEndsOnce(w.queue, id, VerdictFor(w, s), s.instance, s.now);
    }
  }

  // A row that turns terminal while it owns the reservation ends it in the same
  // step, in exactly one of the five ways.
  lemma TerminalEndsReservation(w: World, s: Step, id: RelayId)
    requires TokensSound(w) && AssignedRow(w.queue) == Some(id)
    requires id in Apply(w, s).queue.rows && Terminal(Apply(w, s).queue.rows[id].status)
    ensures EndedOnce(Apply(w, s).queue.authority, w.queue.rows[id].runtime.value.token)
  {
    StepSound(w, s);
    ReservationEndsExactly(w, s, id);
    assert EndsReservation(w, s, id);
    assert w.claims[s.ticket].relay == id;
    OwnFinishEndsReservation(w, s, id);
  }

  // A row that never owned the reservation can still end another row's: an
  // upload that raises quarantines whatever authority its credential scope names,
  // and the owner goes on holding a token nobody accounts for.
  lemma ForeignFailureOrphansReservation(w: World, ticket: nat, id: RelayId, view: View, mode: Mode, instance: nat, now: int)
    requires TokensSound(w) && AssignedRow(w.queue) == Some(id)
    requires Current(w, ticket) && w.claims[ticket].relay != id
    ensures var q := Apply(w, Finish(ticket, view, mode, UploadRaised, 60, None, false, instance, now)).queue;
            && AssignedRow(q).None? && q.rows[id] == w.queue.rows[id]
            && q.rows[id].runtime.Some? && !Terminal(q.rows[id].status)
  {
  }

  // ------------------------------------------------------------ reachable states

  // The world after two files were queued and one lease granted.
  ghost function Offered(source: Source): World {
    INITIAL.(
      queue := Queue(map["a" := NewRow(source, 0), "b" := NewRow(source, 0)],
                     Some(Authority(1, Some(1), Some(Slot(Granted(0), 1)), Some(1000), None, None, Active, NoError, 0)), map[]),
      requests := {0})
  }

  lemma OfferedSteps(source: Source)
    ensures var queued := AddRow(AddRow(INITIAL, "a", source, 0), "b", source, 0);
            Traffic(Traffic(queued, AskLease(None, 0, 1, 0)), AcceptGrant(0, 1, 1, 1000, 0)) == Offered(source)
  {
    assert "a" != "b";
  }

  lemma OfferedIsReachable(source: Source)
    ensures Reachable(Offered(source))
  {
    InitialIsReachable();
    ReachAdd(INITIAL, "a", source, 0);
    var one := AddRow(INITIAL, "a", source, 0);
    ReachAdd(one, "b", source, 0);
    var two := AddRow(one, "b", source, 0);
    ReachTraffic(two, AskLease(None, 0, 1, 0));
    ReachTraffic(Traffic(two, AskLease(None, 0, 1, 0)), AcceptGrant(0, 1, 1, 1000, 0));
    OfferedSteps(source);
  }

  // Two workers with one worker id take both rows and read their claims back.
  ghost function Claimed(source: Source): World {
    Offered(source).(
      queue := Offered(source).queue.(rows := map["a" := LeasedRow(NewRow(source, 0), "w", 300), "b" := LeasedRow(NewRow(source, 0), "w", 300)]),
      claims := map[0 := ClaimOf("a", NewRow(source, 0), "w"), 1 := ClaimOf("b", NewRow(source, 0), "w")],
      tickets := 2, holder := map["a" := 0, "b" := 1])
  }

  ghost function Taken(source: Source): World {
    Claimed(source).(unread := Claimed(source).claims, claims := map[])
  }

  lemma TakeBoth(source: Source)
    ensures Take(Take(Offered(source), "a", "w", 0, 300), "b", "w", 0, 300) == Taken(source)
  {
    assert "a" != "b";
    var w := Take(Take(Offered(source), "a", "w", 0, 300), "b", "w", 0, 300);
    assert w.unread == Taken(source).unread && w.queue.rows == Taken(source).queue.rows && w.holder == Taken(source).holder;
  }

  lemma ReadBoth(source: Source)
    ensures ReadIn(ReadIn(Taken(source), 0), 1) == Claimed(source)
  {
    assert "a" != "b";
    var w := ReadIn(ReadIn(Taken(source), 0), 1);
    assert w.unread == map[] && w.claims == Claimed(source).claims;
  }

  lemma ReserveFirst(source: Source)
    ensures ReserveFor(Claimed(source), 0, 0, 0) == Reserved(source)
  {
    assert "a" != "b";
    assert ReserveFor(Claimed(source), 0, 0, 0).queue.rows == Reserved(source).queue.rows;
  }

  // The first worker has reserved the token.
  ghost function Reserved(source: Source): World {
    Claimed(source).(
      queue := Queue(map["a" := LeasedRow(NewRow(source, 0), "w", 300).(runtime := Some(Runtime(1, 1, Granted(0), 1))),
                         "b" := LeasedRow(NewRow(source, 0), "w", 300)],
                     Some(Authority(1, Some(1), None, Some(1000), Some("a"), None, Active, NoError, 0)), map[]))
  }

  lemma ReservedIsReachable(source: Source)
    ensures Reachable(Reserved(source))
  {
    OfferedIsReachable(source);
    ReachTake(Offered(source), "a", "w", 0, 300);
    ReachTake(Take(Offered(source), "a", "w", 0, 300), "b", "w", 0, 300);
    TakeBoth(source);
    ReachRead(Taken(source), 0);
    ReachRead(ReadIn(Taken(source), 0), 1);
    ReadBoth(source);
    ReachReserve(Claimed(source), 0, 0, 0);
    ReserveFirst(source);
  }

  // The other worker's upload raised.
  ghost function Raise(): Step { Finish(1, View(true, false), Enforce, UploadRaised, 60, None, false, 2, 0) }

  lemma ReservedIsSound(source: Source)
    ensures TokensSound(Reserved(source))
  {
    ReservedIsReachable(source);
    var p: seq<Step> :| Run(INITIAL, p) == Reserved(source);
    RunSound(INITIAL, p);
  }

  // From the empty queue: row "a" holds a token under a live lease, and no
  // authority is assigned to it.
  lemma ReservationCanBeOrphaned(source: Source)
    ensures var w := Apply(Reserved(source), Raise());
            && Reachable(w) && AssignedRow(w.queue).None?
            && "a" in w.queue.rows && w.queue.rows["a"].runtime.Some? && w.queue.rows["a"].status.Leased?
  {
    ReservedIsReachable(source);
    Reach(Reserved(source), Raise());
    ReservedIsSound(source);
    assert "a" != "b";
    ForeignFailureOrphansReservation(Reserved(source), 1, "a", View(true, false), Enforce, 2, 0);
  }
}
