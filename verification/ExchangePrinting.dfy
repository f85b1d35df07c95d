// At-most-once printing: the printer gets one submission per target label and
// attempt number, unless the operator confirmed a reprint or printing was started
// again on a target already journaled as done.  No promise of the server is used.
module ExchangePrinting {
  import opened Common
  import opened ExchangeProtocol
  import opened ExchangeStructure
  import opened ExchangeReadiness

  // Statuses an attempt can have only once it may have been submitted.
  predicate Spent(s: Status) {
    !s.Prepared? && !s.RequestPending? && !s.PrintRequested?
  }

  predicate FirstPoint(p: Point) { p == Submitting(PrintRequested) }

  predicate AboutToSubmitFirst(c: Client, slot: nat) {
    c.At? && FirstPoint(c.point) && c.slot == slot
  }

  // The journal remembers the submission.
  ghost predicate Remembered(w: World, s: Submission) {
    && w.journal.Some? && w.journal.value.exchange == Some(s.target.exchange)
    && s.target.slot < |w.journal.value.targets|
    && var p := w.journal.value.targets[s.target.slot];
    p.no > s.no || (p.no == s.no && Spent(p.status) && !AboutToSubmitFirst(w.client, s.target.slot))
  }

  // The exchange is committed, and no client will print for it again.
  ghost predicate Retired(w: World, x: nat) {
    && x < |w.server.exchanges| && w.server.exchanges[x].committed
    && !(InLoop(w.client) && w.journal.Some? && w.journal.value.exchange == Some(x))
  }

  // A prepare answered with an uncommitted exchange has nothing printed for it.
  ghost predicate AnsweredUnprinted(w: World) {
    w.client.At? && w.client.point.Answered? && !w.client.over ==>
      forall i | 0 <= i < |w.printed| :: w.printed[i].target.exchange != w.client.point.x
  }

  ghost predicate Repeats(printed: seq<Submission>, i: nat, j: nat)
    requires i < j < |printed|
  {
    printed[i].target == printed[j].target && printed[i].no == printed[j].no
  }

  // A repeat was confirmed, or started from a target journaled as done.
  ghost predicate Excused(printed: seq<Submission>) {
    forall i, j | 0 <= i < j < |printed| :: Repeats(printed, i, j) ==> printed[j].confirmed || Done(printed[j].from)
  }

  ghost predicate AllAccounted(w: World) {
    forall i | 0 <= i < |w.printed| :: Remembered(w, w.printed[i]) || Retired(w, w.printed[i].target.exchange)
  }

  ghost predicate Printing(w: World) {
    AllAccounted(w) && AnsweredUnprinted(w) && Excused(w.printed)
  }

  // ------------------------------------------------------------ steps

  lemma ServerMoveRemembers(w: World, v: World)
    requires Printing(w) && Grows(w.server, v.server) && v.journal == w.journal && v.client == w.client && v.printed == w.printed
    ensures Printing(v)
  {
  }

  lemma PrepareRemembers(w: World, count: nat)
    requires Structure(w) && Printing(w) && w.client.At? && w.client.point.Preparing? && w.journal.value.exchange.None?
    ensures Printing(CallPrepare(w, count))
  {
  }

  lemma SavePreparedRemembers(w: World, x: nat)
    requires Structure(w) && Printing(w) && w.client.At? && w.client.point == Answered(x)
    ensures Printing(SavePrepared(w, x))
  {
  }

  lemma ReadRemembers(w: World)
    requires Structure(w) && Printing(w) && w.client.At? && w.client.point.Preparing? && w.journal.value.exchange.Some?
    ensures Printing(Read(w, w.journal.value.exchange.value))
  {
  }

  // Saving progress that keeps or raises the attempt number, and unspends nothing.
  lemma SaveRemembers(w: World, p: Progress, phase: Phase, c: Client)
    requires Printing(w) && OnTarget(w) && InLoop(w.client) && (c.Idle? || InLoop(c))
    requires p.no > Current(w).no || (p.no == Current(w).no && (Spent(Current(w).status) ==> Spent(p.status)))
    requires c.At? && FirstPoint(c.point) ==>
               c.slot == w.client.slot && p.no == Current(w).no && !Spent(Current(w).status)
    ensures Printing(SaveTarget(w, p, phase, c))
  {
  }

  // Moving inside the loop, or leaving it.
  lemma MoveRemembers(w: World, c: Client)
    requires Printing(w) && (c.Idle? || (InLoop(c) && InLoop(w.client)) || (c.At? && c.point.Finish?))
    requires c.At? ==> !FirstPoint(c.point)
    ensures Printing(w.(client := c))
  {
  }

  // The submission itself.
  lemma SubmitOnce(w: World, ok: bool)
    requires Structure(w) && Printing(w) && OnTarget(w) && w.client.point.Submitting?
    ensures Printing(Submit(w, ok))
  {
    var v := Submit(w, ok);
    var n := |w.printed|;
    forall i | 0 <= i < n
      ensures Remembered(v, v.printed[i]) || Retired(v, v.printed[i].target.exchange)
      ensures Repeats(v.printed, i, n) ==> v.printed[n].confirmed || Done(v.printed[n].from)
    {
      assert v.printed[i] == w.printed[i];
      assert Remembered(w, w.printed[i]) || Retired(w, w.printed[i].target.exchange);
    }
    assert Remembered(v, v.printed[n]);
    forall i, j | 0 <= i < j < |v.printed|
      ensures Repeats(v.printed, i, j) ==> v.printed[j].confirmed || Done(v.printed[j].from)
    {
      if j < n {
        assert Repeats(v.printed, i, j) == Repeats(w.printed, i, j);
      }
    }
  }

  lemma SeenRemembers(w: World)
    requires Structure(w) && Printing(w) && OnTarget(w) && w.client.point.Target? && w.client.slot in w.client.seen
    ensures Printing(LookAtTarget(w))
  {
  }

  lemma LookRemembers(w: World)
    requires Structure(w) && Printing(w) && OnTarget(w) && w.client.point.Target?
    ensures Printing(LookAtTarget(w))
  {
    var p, c := Current(w), w.client;
    CurrentOk(w);
    if c.slot in c.seen {
      SeenRemembers(w);
    } else if p.status.FailureAckPending? {
      MoveRemembers(w, c.(point := FailureAcking));
    } else if p.attempt.Some? && !p.status.PrintFailed? {
      MoveRemembers(w, c.(point := ExchangeProtocol.Printing));
    } else if p.status.RequestPending? {
      MoveRemembers(w, c.(point := Requesting));
    } else {
      SaveRemembers(w, Progress(RequestPending, p.no + 1, None, Some(KeyFor(w, p.no + 1))), Open, c.(point := Requesting));
    }
  }

  lemma StartPrintRemembers(w: World, ok: bool)
    requires Structure(w) && Printing(w) && OnTarget(w) && w.client.point.Printing?
    ensures Printing(StartPrint(w, ok))
  {
    var p, c := Current(w), w.client;
    if p.status.Starting? && !c.confirm {
      MoveRemembers(w, Idle);
    } else if p.status.LocalSucceeded? || p.status.CompletePending? {
      SaveRemembers(w, p.(status := CompletePending), Open, c.(point := Completing));
    } else if !ok {
      MoveRemembers(w, c.(point := Raised));
    } else {
      SaveRemembers(w, p.(status := Starting), Open, c.(point := Submitting(p.status)));
    }
  }

  lemma SavesRemember(w: World, ok: bool)
    requires Structure(w) && Printing(w) && OnTarget(w)
    requires w.client.point.Submitted? || w.client.point.Proven? || w.client.point.Raised? || w.client.point.FailureAcked?
             || w.client.point.GotAttempt? || w.client.point.CompleteAnswered?
    ensures Printing(GoTarget(w, ok))
  {
    var p, c := Current(w), w.client;
    CurrentOk(w);
    match c.point {
      case GotAttempt => SaveRemembers(w, p.(status := PrintRequested, attempt := p.key), Open, c.(point := ExchangeProtocol.Printing));
      case Submitted => SaveRemembers(w, p.(status := LocalSucceeded), Open, c.(point := Proven));
      case Proven => SaveRemembers(w, p.(status := CompletePending), Open, c.(point := Completing));
      case Raised => SaveRemembers(w, p.(status := FailureAckPending), Open, c.(point := FailureAcking));
      case FailureAcked => SaveRemembers(w, p.(status := PrintFailed), Open, Idle);
      case CompleteAnswered =>
        if w.journal.value.op.Single? {
          SaveRemembers(w, p.(status := Completed), Open, c.(point := Target));
        } else {
          SaveRemembers(w, p.(status := Completed), Open, c.(point := Target, slot := c.slot + 1));
        }
    }
  }

  // A call that only touches the server and the log of requests.
  lemma CallRemembers(w: World, v: World)
    requires Printing(w) && Grows(w.server, v.server) && v.journal == w.journal && v.printed == w.printed
    requires InLoop(w.client) && (v.client.Idle? || (v.client.At? && v.client.point.Finish?)
                                  || (InLoop(v.client) && !FirstPoint(v.client.point)))
    ensures Printing(v)
  {
  }

  lemma CallsGrow(w: World, served: bool)
    requires ServerOk(w.server)
    ensures OnTarget(w) ==> Grows(w.server, CallComplete(w).server)
    ensures OnExchange(w) ==> Grows(w.server, CallActivate(w, served).server)
  {
  }

  lemma CompleteRemembers(w: World)
    requires Structure(w) && Printing(w) && OnTarget(w) && w.client.point.Completing?
    ensures Printing(CallComplete(w))
  {
    CallsGrow(w, true);
    CallRemembers(w, CallComplete(w));
  }

  lemma RequestRemembers(w: World)
    requires Structure(w) && Printing(w) && OnTarget(w) && w.client.point.Requesting?
    ensures Printing(CallRequest(w))
  {
  }

  lemma FailedRemembers(w: World)
    requires Structure(w) && Printing(w) && OnTarget(w) && w.client.point.FailureAcking?
    ensures Printing(CallFailed(w))
  {
  }

  lemma GoTargetRemembers(w: World, ok: bool)
    requires Structure(w) && Printing(w) && OnTarget(w) && InLoop(w.client)
    requires !w.client.point.Checking? && !w.client.point.Activating?
    ensures Printing(GoTarget(w, ok))
  {
    match w.client.point {
      case Target => LookRemembers(w);
      case Printing => StartPrintRemembers(w, ok);
      case Submitting(_) => SubmitOnce(w, ok);
      case Requesting => RequestRemembers(w);
      case FailureAcking => FailedRemembers(w);
      case Completing => CompleteRemembers(w);
      case _ => SavesRemember(w, ok);
    }
  }

  lemma ActivateRemembers(w: World, served: bool)
    requires Structure(w) && Printing(w) && w.client.At? && w.client.point.Activating?
    ensures OnExchange(w) && Printing(CallActivate(w, served))
  {
    CallsGrow(w, served);
    CallRemembers(w, CallActivate(w, served));
  }

  lemma SmallStepsRemember(w: World, ok: bool)
    requires Structure(w) && Printing(w) && w.client.At?
    ensures w.client.point.Checking? ==> OnExchange(w) && Printing(CheckReady(w))
    ensures w.client.point.Finish? ==> OnExchange(w) && Printing(SaveCommitted(w, ok))
    ensures w.client.point.Target? ==> Printing(Move(w, Checking))
  {
  }

  lemma OtherRemembers(w: World, ok: bool, count: nat)
    requires Structure(w) && Printing(w) && w.client.At?
    requires w.client.point.Checking? || w.client.point.Activating? || w.client.point.Finish?
             || (w.client.point.Target? && w.client.slot == |w.journal.value.targets|)
    ensures Printing(Go(w, ok, count))
  {
    if w.client.point.Activating? {
      ActivateRemembers(w, ok);
    } else {
      SmallStepsRemember(w, ok);
    }
  }

  lemma ActPrepareRemembers(w: World, ok: bool, count: nat)
    requires Structure(w) && Printing(w) && w.client.At? && (w.client.point.Preparing? || w.client.point.Answered?)
    ensures Printing(Go(w, ok, count))
  {
    if w.client.point.Answered? {
      SavePreparedRemembers(w, w.client.point.x);
    } else if w.journal.value.exchange.None? {
      PrepareRemembers(w, count);
    } else {
      ReadRemembers(w);
    }
  }

  lemma ActTargetRemembers(w: World, ok: bool, count: nat)
    requires Structure(w) && Printing(w) && OnTarget(w) && InLoop(w.client) && !w.client.point.Checking? && !w.client.point.Activating?
    ensures Printing(Go(w, ok, count))
  {
    GoTargetRemembers(w, ok);
  }

  lemma ActRemembers(w: World, ok: bool, count: nat)
    requires Structure(w) && Printing(w) && w.client.At?
    ensures Printing(Go(w, ok, count))
  {
    if w.client.point.Preparing? || w.client.point.Answered? {
      ActPrepareRemembers(w, ok, count);
    } else if w.client.point.Checking? || w.client.point.Activating? || w.client.point.Finish? || !OnTarget(w) {
      OtherRemembers(w, ok, count);
    } else {
      ActTargetRemembers(w, ok, count);
    }
  }

  lemma BeginRemembers(w: World, step: Step)
    requires Structure(w) && Printing(w) && w.client.Idle? && (step.DoSingle? || step.DoReconcile?)
    ensures Printing(Apply(w, step))
  {
  }

  // A step that changes the phase of the journal at most, and stops the client.
  lemma PhaseRemembers(w: World, v: World)
    requires Printing(w) && v.server == w.server && v.printed == w.printed && v.client.Idle?
    requires v.journal.Some? == w.journal.Some?
    requires w.journal.Some? ==> v.journal.value.exchange == w.journal.value.exchange && v.journal.value.targets == w.journal.value.targets
    ensures Printing(v)
  {
  }

  lemma PhasesRemember(w: World, x: nat)
    requires Printing(w)
    ensures Printing(Stop(w)) && Printing(Refuse(w)) && Printing(Refreshed(w, x))
  {
    PhaseRemembers(w, Stop(w));
    if Refuse(w) != w {
      PhaseRemembers(w, Refuse(w));
    }
    if Refreshed(w, x) != w {
      PhaseRemembers(w, Refreshed(w, x));
    }
  }

  lemma StepKeepsPrinting(w: World, step: Step)
    requires Structure(w) && Printing(w)
    ensures Printing(Apply(w, step))
  {
    if step.DoSingle? || step.DoReconcile? {
      if w.client.Idle? {
        BeginRemembers(w, step);
      }
    } else if step.Act? {
      if w.client.At? {
        ActRemembers(w, step.ok, step.count);
      }
    } else {
      PhasesRemember(w, if step.ConfirmRefresh? then step.x else 0);
      ForeignGrows(w.server, step);
      ServerMoveRemembers(w, Environment(w, step));
    }
  }

  lemma {:induction false} RunKeepsPrinting(steps: seq<Step>)
    ensures Printing(Run(Initial, steps))
  {
    if steps != [] {
      var before := steps[..|steps| - 1];
      RunKeepsPrinting(before);
      RunKeepsStructure(before);
      StepKeepsPrinting(Run(Initial, before), steps[|steps| - 1]);
    }
  }

  // ------------------------------------------------------------ results

  // The label and number of submission j went to the printer before.
  ghost predicate Repeated(printed: seq<Submission>, j: nat)
    requires j < |printed|
  {
    exists i: nat :: i < j && Repeats(printed, i, j)
  }

  // In every run of crashes, lost answers, both workflows and whatever the server
  // does: an unconfirmed repeat was started from a target journaled COMPLETED or
  // ACTIVATE_PENDING.
  lemma RepeatStartsFromDone(steps: seq<Step>, j: nat)
    requires var p := Run(Initial, steps).printed; j < |p| && !p[j].confirmed && Repeated(p, j)
    ensures Done(Run(Initial, steps).printed[j].from)
  {
    RunKeepsPrinting(steps);
  }

  // A test before the printer is reached: at the point where printing
  // starts, a target journaled as requested was never submitted under its number.
  lemma RequestedWasNeverSubmitted(steps: seq<Step>, i: nat)
    requires var w := Run(Initial, steps);
             OnTarget(w) && InLoop(w.client) && Current(w).status.PrintRequested? && i < |w.printed|
    ensures var w := Run(Initial, steps);
            !(w.printed[i].target == CurrentLabel(w) && w.printed[i].no == Current(w).no)
  {
    RunKeepsPrinting(steps);
    var w := Run(Initial, steps);
    assert Remembered(w, w.printed[i]) || Retired(w, w.printed[i].target.exchange);
  }

  // So a second submission of a label's attempt was confirmed by the operator,
  // unless the server had taken that very label back.
  lemma PrintedAtMostOnce(steps: seq<Step>, i: nat, j: nat)
    requires i < j < |Run(Initial, steps).printed|
    requires var p := Run(Initial, steps).printed; p[i].target == p[j].target && p[i].no == p[j].no
    ensures var w := Run(Initial, steps); w.printed[j].confirmed || w.printed[j].target in w.takenBack
  {
    RunKeepsPrinting(steps);
    RunKeepsReadiness(steps);
    assert Repeats(Run(Initial, steps).printed, i, j);
  }

  // Against a server that never takes a target back, it always was.
  lemma SteadyPrintsOnce(steps: seq<Step>, i: nat, j: nat)
    requires Steady(steps) && i < j < |Run(Initial, steps).printed|
    requires var p := Run(Initial, steps).printed; p[i].target == p[j].target && p[i].no == p[j].no
    ensures Run(Initial, steps).printed[j].confirmed
  {
    PrintedAtMostOnce(steps, i, j);
    SteadyTakesNothingBack(steps);
  }
}
