// What every run keeps between the journal, the client's point in the protocol
// and the server: one exchange per journal operation, one key per print attempt,
// no commit journaled without one, no unfinished journal overwritten.
module ExchangeStructure {
  import opened Common
  import opened ExchangeProtocol

  // ------------------------------------------------------------ the invariant

  predicate HasAttempt(s: Status) {
    s.PrintRequested? || s.Starting? || s.LocalSucceeded? || s.CompletePending? || s.FailureAckPending?
  }

  ghost predicate ProgressOk(p: Progress, key: PrintKey) {
    && (p.attempt.Some? ==> p.no >= 1 && p.attempt == Some(key) && p.key == Some(key))
    && (p.status.RequestPending? ==> p.attempt.None? && p.no >= 1 && p.key == Some(key))
    && (HasAttempt(p.status) ==> p.attempt.Some?)
    && (p.status.Prepared? ==> p.no == 0)
  }

  ghost predicate ServerOk(s: Server) {
    && (forall i, j | 0 <= i < j < |s.exchanges| :: s.exchanges[i].key != s.exchanges[j].key)
    && (forall i | 0 <= i < |s.exchanges| :: s.exchanges[i].count >= 1)
    && (forall i | 0 <= i < |s.exchanges| :: s.exchanges[i].key.Single? ==> s.exchanges[i].count == 1)
  }

  ghost predicate TargetsOk(j: Journal, x: nat) {
    forall k | 0 <= k < |j.targets| :: ProgressOk(j.targets[k], PrintKey(j.op.Single?, Label(x, k), j.targets[k].no))
  }

  ghost predicate JournalOk(j: Journal, s: Server) {
    && (j.exchange.None? ==> j.targets == [] && !j.phase.CommittedLocally? && !j.phase.RefreshPending?)
    && (j.exchange.Some? ==>
          && j.exchange.value < |s.exchanges| && !j.phase.Cancelled?
          && (j.targets == [] || |j.targets| == s.exchanges[j.exchange.value].count)
          && TargetsOk(j, j.exchange.value)
          && (j.op.Single? ==> s.exchanges[j.exchange.value].count == 1)
          && (j.phase.CommittedLocally? || j.phase.RefreshPending? ==> s.exchanges[j.exchange.value].committed))
  }

  // Exchanges are traced to the journal operation that made them.
  ghost predicate EpochsOk(w: World) {
    && (forall i | 0 <= i < |w.server.exchanges| && w.server.exchanges[i].epoch.Some? ::
          var e := w.server.exchanges[i];
          && e.epoch.value <= w.epoch
          && (e.epoch.value == w.epoch ==> w.journal.Some? && e.key == w.journal.value.op && !w.journal.value.phase.Cancelled?))
    && (forall i, j | 0 <= i < j < |w.server.exchanges| && w.server.exchanges[i].epoch.Some? ::
          w.server.exchanges[i].epoch != w.server.exchanges[j].epoch)
  }

  // The statuses printing can start from.
  predicate PrintsFrom(s: Status) { s.PrintRequested? || s.Starting? || s.Completed? || s.ActivationSaved? }

  ghost predicate PointOk(c: Client, p: Progress)
    requires c.At?
  {
    match c.point
    case Requesting | GotAttempt => p.status.RequestPending?
    case Printing => p.attempt.Some? && !p.status.FailureAckPending? && !p.status.PrintFailed?
    case Raised => p.attempt.Some?
    case Submitting(from) => p.status.Starting? && PrintsFrom(from) && (from.Starting? ==> c.confirm)
    case Submitted => p.status.Starting?
    case Proven => p.status.LocalSucceeded?
    case Completing | CompleteAnswered => p.status.CompletePending?
    case FailureAcking | FailureAcked => p.status.FailureAckPending?
    case _ => true
  }

  ghost predicate ClientOk(w: World) {
    w.client.At? ==>
      && Active(w.journal)
      && var j := w.journal.value;
      match w.client.point
      case Preparing => true
      case Answered(x) =>
        && j.exchange.None? && x < |w.server.exchanges| && w.server.exchanges[x].key == j.op
        && (w.client.over ==> w.server.exchanges[x].committed)
      case Checking => j.exchange.Some? && j.targets != [] && !j.op.Single?
      case Activating => j.exchange.Some? && j.targets != [] && j.phase.ActivatePending?
      case Finish => OnExchange(w) && w.server.exchanges[j.exchange.value].committed
      case Target => j.exchange.Some? && j.targets != [] && w.client.slot <= |j.targets| && (j.op.Single? ==> w.client.slot == 0)
      case _ => OnTarget(w) && PointOk(w.client, Current(w)) && (j.op.Single? ==> w.client.slot == 0)
  }

  ghost predicate SentOk(sent: seq<Request>) {
    forall i | 0 <= i < |sent| :: sent[i].key == PrintKey(sent[i].key.single, sent[i].target, sent[i].no)
  }

  ghost predicate Structure(w: World) {
    ServerOk(w.server) && (w.journal.Some? ==> JournalOk(w.journal.value, w.server)) && EpochsOk(w) && ClientOk(w) && SentOk(w.sent)
  }

  // ------------------------------------------------------------ the server only grows

  ghost predicate Grows(s: Server, t: Server) {
    && |s.exchanges| <= |t.exchanges|
    && (forall i | 0 <= i < |s.exchanges| ::
          && t.exchanges[i].key == s.exchanges[i].key && t.exchanges[i].count == s.exchanges[i].count
          && t.exchanges[i].epoch == s.exchanges[i].epoch && (s.exchanges[i].committed ==> t.exchanges[i].committed))
  }

  lemma GrowthKeepsJournal(j: Journal, s: Server, t: Server)
    requires JournalOk(j, s) && Grows(s, t)
    ensures JournalOk(j, t)
  {
  }

  lemma SetGrows(s: Server, x: nat, e: Exchange)
    requires x < |s.exchanges| && ServerOk(s)
    requires e.key == s.exchanges[x].key && e.count == s.exchanges[x].count && e.epoch == s.exchanges[x].epoch
    requires s.exchanges[x].committed ==> e.committed
    ensures Grows(s, SetExchange(s, x, e)) && ServerOk(SetExchange(s, x, e))
  {
  }

  lemma ForeignGrows(s: Server, step: Step)
    requires ServerOk(s)
    ensures var t := Foreign(s, step);
            && Grows(s, t) && ServerOk(t) && |t.exchanges| <= |s.exchanges| + 1
            && (|t.exchanges| > |s.exchanges| ==> t.exchanges[|s.exchanges|].epoch.None?)
  {
  }

  // A server that moved on its own leaves the client's facts standing.
  lemma ForeignKeeps(w: World, v: World)
    requires Structure(w) && Grows(w.server, v.server) && ServerOk(v.server) && |v.server.exchanges| <= |w.server.exchanges| + 1
    requires |v.server.exchanges| > |w.server.exchanges| ==> v.server.exchanges[|w.server.exchanges|].epoch.None?
    requires v.journal == w.journal && v.epoch == w.epoch && v.client == w.client && v.sent == w.sent
    ensures Structure(v)
  {
  }

  // ------------------------------------------------------------ the client's own steps

  lemma StartKeeps(w: World, op: Operation, linked: Option<nat>, confirm: bool)
    requires Structure(w) && w.client.Idle? && !Active(w.journal)
    requires linked.Some? ==> linked.value < |w.server.exchanges| && op.Reconcile?
    ensures Structure(NewJournal(w, op, linked, confirm))
  {
  }

  lemma PrepareKeeps(w: World, count: nat)
    requires Structure(w) && w.client.At? && w.client.point.Preparing? && w.journal.value.exchange.None?
    ensures Structure(CallPrepare(w, count))
  {
  }

  lemma SavePreparedKeeps(w: World, x: nat)
    requires Structure(w) && w.client.At? && w.client.point == Answered(x)
    ensures Structure(SavePrepared(w, x))
  {
  }

  lemma ReadKeeps(w: World)
    requires Structure(w) && w.client.At? && w.client.point.Preparing? && w.journal.value.exchange.Some?
    ensures Structure(Read(w, w.journal.value.exchange.value))
  {
  }

  // Saving one target's progress.
  lemma SaveKeeps(w: World, p: Progress, phase: Phase, c: Client)
    requires Structure(w) && OnTarget(w) && ProgressOk(p, KeyFor(w, p.no)) && (phase.Open? || phase.ActivatePending?)
    requires c.At? && (w.journal.value.op.Single? ==> c.slot == 0)
    requires match c.point
             case Preparing | Answered(_) | Checking | Finish => false
             case Activating => phase.ActivatePending?
             case Target => c.slot <= |w.journal.value.targets|
             case _ => c.slot == w.client.slot && PointOk(c, p)
    ensures Structure(SaveTarget(w, p, phase, c))
  {
  }

  lemma CurrentOk(w: World)
    requires Structure(w) && OnTarget(w)
    ensures ProgressOk(Current(w), KeyFor(w, Current(w).no))
  {
  }

  lemma SeenKeeps(w: World)
    requires Structure(w) && OnTarget(w) && w.client.point.Target? && w.client.slot in w.client.seen
    ensures Structure(LookAtTarget(w))
  {
  }

  lemma LookKeeps(w: World)
    requires Structure(w) && OnTarget(w) && w.client.point.Target?
    ensures Structure(LookAtTarget(w))
  {
    var p, c := Current(w), w.client;
    CurrentOk(w);
    if c.slot in c.seen {
      SeenKeeps(w);
    } else if !p.status.FailureAckPending? && (p.attempt.None? || p.status.PrintFailed?) && !p.status.RequestPending? {
      SaveKeeps(w, Progress(RequestPending, p.no + 1, None, Some(KeyFor(w, p.no + 1))), Open, c.(point := Requesting));
    }
  }

  lemma CompleteKeeps(w: World)
    requires Structure(w) && OnTarget(w) && w.client.point.Completing?
    ensures Structure(CallComplete(w))
  {
    CurrentOk(w);
    var x := w.journal.value.exchange.value;
    var e := w.server.exchanges[x].(ready := w.server.exchanges[x].ready + {w.client.slot});
    SetGrows(w.server, x, e);
    GrowthKeepsJournal(w.journal.value, w.server, CallComplete(w).server);
  }

  lemma RequestKeeps(w: World)
    requires Structure(w) && OnTarget(w) && w.client.point.Requesting?
    ensures Structure(CallRequest(w))
  {
  }

  lemma FailedKeeps(w: World)
    requires Structure(w) && OnTarget(w) && w.client.point.FailureAcking?
    ensures Structure(CallFailed(w))
  {
  }

  lemma CallsKeep(w: World, ok: bool)
    requires Structure(w) && OnTarget(w)
    requires w.client.point.Requesting? || w.client.point.Completing? || w.client.point.FailureAcking?
    ensures Structure(GoTarget(w, ok))
  {
    match w.client.point {
      case Requesting => RequestKeeps(w);
      case Completing => CompleteKeeps(w);
      case FailureAcking => FailedKeeps(w);
    }
  }

  lemma StartPrintKeeps(w: World, ok: bool)
    requires Structure(w) && OnTarget(w) && w.client.point.Printing?
    ensures Structure(StartPrint(w, ok))
  {
    CurrentOk(w);
    var p, c := Current(w), w.client;
    if p.status.Starting? && !c.confirm {
    } else if p.status.LocalSucceeded? || p.status.CompletePending? {
      SaveKeeps(w, p.(status := CompletePending), Open, c.(point := Completing));
    } else if ok {
      SaveKeeps(w, p.(status := Starting), Open, c.(point := Submitting(p.status)));
    }
  }

  lemma SaveCompletedKeeps(w: World)
    requires Structure(w) && OnTarget(w) && w.client.point.CompleteAnswered?
    ensures Structure(SaveCompleted(w))
  {
  }

  lemma GotAttemptKeeps(w: World)
    requires Structure(w) && OnTarget(w) && w.client.point.GotAttempt?
    ensures Structure(SaveRequested(w))
  {
  }

  lemma SaveFailedKeeps(w: World)
    requires Structure(w) && OnTarget(w) && w.client.point.FailureAcked?
    ensures Structure(SaveFailed(w))
  {
  }

  lemma TargetKeeps(w: World, ok: bool)
    requires Structure(w) && OnTarget(w)
    requires w.client.point.Submitting? || w.client.point.Submitted? || w.client.point.Proven? || w.client.point.Raised?
    ensures Structure(GoTarget(w, ok))
  {
  }

  lemma ActivateKeeps(w: World, served: bool)
    requires Structure(w) && w.client.At? && w.client.point.Activating?
    ensures OnExchange(w) && Structure(CallActivate(w, served))
  {
  }

  lemma GoTargetKeeps(w: World, ok: bool)
    requires Structure(w) && OnTarget(w)
    ensures Structure(GoTarget(w, ok))
  {
    var c := w.client;
    if c.point.Submitting? || c.point.Submitted? || c.point.Proven? || c.point.Raised? {
      TargetKeeps(w, ok);
    } else if c.point.Requesting? || c.point.Completing? || c.point.FailureAcking? {
      CallsKeep(w, ok);
    } else {
      GoTargetSaves(w, ok);
    }
  }

  lemma GoTargetSaves(w: World, ok: bool)
    requires Structure(w) && OnTarget(w)
    requires !w.client.point.Submitting? && !w.client.point.Submitted? && !w.client.point.Proven? && !w.client.point.Raised?
    requires !w.client.point.Requesting? && !w.client.point.Completing? && !w.client.point.FailureAcking?
    ensures Structure(GoTarget(w, ok))
  {
    match w.client.point {
      case Target => LookKeeps(w);
      case GotAttempt => GotAttemptKeeps(w);
      case Printing => StartPrintKeeps(w, ok);
      case CompleteAnswered => SaveCompletedKeeps(w);
      case FailureAcked => SaveFailedKeeps(w);
      case _ =>
    }
  }

  lemma SmallStepsKeep(w: World, ok: bool)
    requires Structure(w) && w.client.At?
    ensures w.client.point.Checking? ==> OnExchange(w) && Structure(CheckReady(w))
    ensures w.client.point.Finish? ==> OnExchange(w) && Structure(SaveCommitted(w, ok))
    ensures w.client.point.Target? && w.client.slot == |w.journal.value.targets| ==> Structure(Move(w, Checking))
  {
  }

  lemma ActPrepareKeeps(w: World, ok: bool, count: nat)
    requires Structure(w) && w.client.At? && w.client.point.Preparing?
    ensures Structure(Go(w, ok, count))
  {
    if w.journal.value.exchange.None? { PrepareKeeps(w, count); } else { ReadKeeps(w); }
  }

  lemma ActAnsweredKeeps(w: World, ok: bool, count: nat)
    requires Structure(w) && w.client.At? && (w.client.point.Answered? || w.client.point.Activating?)
    ensures Structure(Go(w, ok, count))
  {
    if w.client.point.Answered? { SavePreparedKeeps(w, w.client.point.x); } else { ActivateKeeps(w, ok); }
  }

  lemma ActKeeps(w: World, ok: bool, count: nat)
    requires Structure(w) && w.client.At?
    ensures Structure(Go(w, ok, count))
  {
    if w.client.point.Preparing? {
      ActPrepareKeeps(w, ok, count);
    } else if w.client.point.Answered? || w.client.point.Activating? {
      ActAnsweredKeeps(w, ok, count);
    } else {
      ActTargetKeeps(w, ok, count);
    }
  }

  lemma ActTargetKeeps(w: World, ok: bool, count: nat)
    requires Structure(w) && w.client.At?
    requires !w.client.point.Preparing? && !w.client.point.Answered? && !w.client.point.Activating?
    ensures Structure(Go(w, ok, count))
  {
    SmallStepsKeep(w, ok);
    if OnTarget(w) && !w.client.point.Checking? && !w.client.point.Finish? {
      GoTargetKeeps(w, ok);
    }
  }

  lemma BeginKeeps(w: World, step: Step)
    requires Structure(w) && (step.DoSingle? || step.DoReconcile?)
    ensures Structure(Apply(w, step))
  {
    if w.client.Idle? && !Active(w.journal) {
      if step.DoSingle? {
        StartKeeps(w, Single(step.master, step.instruction, step.request), None, step.confirm);
      } else if step.context.Some? && (step.linked.Some? ==> step.linked.value < |w.server.exchanges|) {
        StartKeeps(w, Reconcile(step.context.value), step.linked, step.confirm);
      }
    }
  }

  lemma PhaseKeeps(w: World, x: nat)
    requires Structure(w)
    ensures Structure(Stop(w)) && Structure(Refuse(w)) && Structure(Refreshed(w, x))
  {
  }

  lemma EnvironmentKeeps(w: World, step: Step)
    requires Structure(w)
    ensures Structure(Environment(w, step))
  {
    ForeignGrows(w.server, step);
    ForeignKeeps(w, Environment(w, step));
  }

  lemma StepKeepsStructure(w: World, step: Step)
    requires Structure(w)
    ensures Structure(Apply(w, step))
  {
    if step.DoSingle? || step.DoReconcile? {
      BeginKeeps(w, step);
    } else if step.Act? {
      if w.client.At? {
        ActKeeps(w, step.ok, step.count);
      }
    } else {
      PhaseKeeps(w, if step.ConfirmRefresh? then step.x else 0);
      EnvironmentKeeps(w, step);
    }
  }

  lemma {:induction false} RunKeepsStructure(steps: seq<Step>)
    ensures Structure(Run(Initial, steps))
  {
    if steps != [] {
      RunKeepsStructure(steps[..|steps| - 1]);
      StepKeepsStructure(Run(Initial, steps[..|steps| - 1]), steps[|steps| - 1]);
    }
  }

  // ------------------------------------------------------------ results for every run

  // A journal operation creates at most one exchange.
  lemma OneExchangePerOperation(steps: seq<Step>, i: nat, j: nat)
    requires var es := Run(Initial, steps).server.exchanges;
             i < |es| && j < |es| && es[i].epoch.Some? && es[i].epoch == es[j].epoch
    ensures i == j
  {
    RunKeepsStructure(steps);
  }

  // An operation that ended CANCELLED created none.
  lemma CancelledCreatedNothing(steps: seq<Step>, i: nat)
    requires var w := Run(Initial, steps);
             w.journal.Some? && w.journal.value.phase.Cancelled? && i < |w.server.exchanges|
    ensures Run(Initial, steps).server.exchanges[i].epoch != Some(Run(Initial, steps).epoch)
  {
    RunKeepsStructure(steps);
  }

  // COMMITTED is journaled only when the server committed that exchange.
  lemma CommittedOnlyAfterTheServer(steps: seq<Step>)
    requires var w := Run(Initial, steps);
             w.journal.Some? && (w.journal.value.phase.CommittedLocally? || w.journal.value.phase.RefreshPending?)
    ensures var w := Run(Initial, steps);
            && w.journal.value.exchange.Some? && w.journal.value.exchange.value < |w.server.exchanges|
            && w.server.exchanges[w.journal.value.exchange.value].committed
  {
    RunKeepsStructure(steps);
  }

  // Every request for an attempt number, resumed or not, carries the key of that
  // target and number.
  lemma RequestsReuseTheirKey(steps: seq<Step>, i: nat)
    requires i < |Run(Initial, steps).sent|
    ensures var r := Run(Initial, steps).sent[i]; r.key.target == r.target && r.key.no == r.no
  {
    RunKeepsStructure(steps);
  }

  // ------------------------------------------------------------ journal ownership

  // No step replaces an unfinished journal by another operation's, whichever
  // workflow takes it.
  lemma UnfinishedJournalIsKept(w: World, step: Step)
    requires Active(w.journal)
    ensures var v := Apply(w, step);
            v.epoch == w.epoch && v.journal.Some? && v.journal.value.op == w.journal.value.op
  {
    if step.Act? && OnTarget(w) {
      TargetActionKeepsOperation(w, step.ok);
    }
  }

  lemma TargetActionKeepsOperation(w: World, ok: bool)
    requires OnTarget(w)
    ensures var v := GoTarget(w, ok);
            v.epoch == w.epoch && v.journal.Some? && v.journal.value.op == w.journal.value.op
  {
  }

  lemma {:induction false} RunExtends(w: World, a: seq<Step>, b: seq<Step>)
    ensures Run(w, a + b) == Run(Run(w, a), b)
  {
    if b == [] {
      assert a + b == a;
    } else {
      assert (a + b)[..|a + b| - 1] == a + b[..|b| - 1];
      RunExtends(w, a, b[..|b| - 1]);
    }
  }

  ghost predicate ActiveThroughout(w: World, steps: seq<Step>) {
    forall n | 0 <= n < |steps| :: Active(Run(w, steps[..n]).journal)
  }

  // Over any run, the journal changes hands only after it was finished.
  lemma {:induction false} UnfinishedJournalSurvives(w: World, steps: seq<Step>)
    requires ActiveThroughout(w, steps) && w.journal.Some?
    ensures Run(w, steps).epoch == w.epoch && Run(w, steps).journal.Some?
    ensures Run(w, steps).journal.value.op == w.journal.value.op
  {
    if steps != [] {
      var n := |steps| - 1;
      forall m | 0 <= m < n
        ensures Active(Run(w, steps[..n][..m]).journal)
      {
        assert steps[..n][..m] == steps[..m];
      }
      UnfinishedJournalSurvives(w, steps[..n]);
      assert Active(Run(w, steps[..n]).journal);
      UnfinishedJournalIsKept(Run(w, steps[..n]), steps[n]);
    }
  }

  // In every run an activate is only sent once the journal says it is pending.
  lemma ActivateIsJournaled(steps: seq<Step>)
    requires Run(Initial, steps).client.At? && Run(Initial, steps).client.point.Activating?
    ensures Run(Initial, steps).journal.Some? && Run(Initial, steps).journal.value.phase.ActivatePending?
  {
    RunKeepsStructure(steps);
  }

  // How the server takes a report: a success counts unless the attempt is unknown or
  // failed, and makes the target ready; a failure counts unless the attempt is unknown or
  // succeeded; one that does not count stops the client and changes nothing there.
  lemma ReportsAnswered(w: World, ok: bool, count: nat)
    requires OnTarget(w) && Current(w).attempt.Some? && (w.client.point.Completing? || w.client.point.FailureAcking?)
    ensures var v, key, done := Apply(w, Act(ok, count)), Current(w).attempt.value, w.client.point.Completing?;
            var x := w.journal.value.exchange.value;
            var counts := key in w.server.attempts && w.server.attempts[key] != (if done then Failed else Succeeded);
            && v.journal == w.journal
            && (!counts ==> v.server == w.server && v.client.Idle?)
            && (counts ==>
                  && v.server.attempts == w.server.attempts[key := if done then Succeeded else Failed]
                  && v.server.exchanges == (if done then w.server.exchanges[x := w.server.exchanges[x].(ready := w.server.exchanges[x].ready + {w.client.slot})]
                                            else w.server.exchanges)
                  && (!done ==> v.client == w.client.(point := FailureAcked)))
  {
  }

  // What is committed at the server is journaled as committed, except that a single
  // exchange whose tray was not refreshed waits for that; the confirmation names it.
  lemma FinishExactly(w: World, ok: bool, count: nat, x: nat)
    requires OnExchange(w) && w.client.point.Finish?
    ensures var v := Apply(w, Act(ok, count));
            && v.client.Idle? && v.server == w.server && v.journal.Some?
            && v.journal.value == w.journal.value.(phase := v.journal.value.phase)
            && v.journal.value.phase == (if w.journal.value.op.Single? && !ok then RefreshPending else CommittedLocally)
            && (v.journal.value.phase == RefreshPending ==>
                  Apply(v, ConfirmRefresh(x)).journal == Some(v.journal.value.(phase := if v.journal.value.exchange == Some(x) then CommittedLocally else RefreshPending)))
  {
  }

  // ------------------------------------------------------------ starting

  predicate Unfinished(j: Option<Journal>) {
    j != None && j.value.phase != CommittedLocally && j.value.phase != Cancelled
  }

  // A journal this call may go on with: unfinished, of its own workflow, and of the
  // tray, instruction or reconciliation it names, if it names one.
  predicate MayResume(step: Step, j: Option<Journal>) {
    && Unfinished(j)
    && match step
       case DoSingle(master, instruction, _, _) =>
         j.value.op.Single? && j.value.op.master == master && (instruction == "" || instruction == j.value.op.instruction)
       case DoReconcile(context, _, _) => j.value.op.Reconcile? && (context.None? || context.value == j.value.op.request)
       case _ => false
  }

  // A call that may begin a journal of its own: none is unfinished, and it names one.
  predicate MayBegin(step: Step, w: World) {
    && !Unfinished(w.journal)
    && match step
       case DoSingle(_, instruction, _, _) => instruction != ""
       case DoReconcile(context, linked, _) => context.Some? && (linked.Some? ==> linked.value < |w.server.exchanges|)
       case _ => false
  }

  // A start changes nothing while an execution runs.  Otherwise the client begins at
  // the journal exactly when the call may resume it or may begin one of its own; a
  // resumed journal is untouched, and a new one is what the call names.
  lemma StartsExactly(w: World, step: Step)
    requires step.DoSingle? || step.DoReconcile?
    ensures var v := Apply(w, step);
            && (!w.client.Idle? ==> v == w)
            && (w.client.Idle? ==> (v.client.At? <==> MayResume(step, w.journal) || MayBegin(step, w)))
            && (w.client.Idle? && v.client.Idle? ==> v == w)
            && (w.client.Idle? && v.client.At? ==>
                  && v.client == At(Preparing, 0, step.confirm, {}, false) && v.server == w.server
                  && (MayResume(step, w.journal) ==> v == w.(client := v.client))
                  && (MayBegin(step, w) ==>
                        && v.journal == Some(Journal(if step.DoSingle? then Single(step.master, step.instruction, step.request)
                                                     else Reconcile(step.context.value),
                                                     if step.DoSingle? then None else step.linked, [], Open))
                        && v.epoch == w.epoch + 1))
  {
  }
}
