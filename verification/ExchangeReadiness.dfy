// What the client last read of an exchange, against a server that may take a
// ready target back: whatever was seen ready is ready, or was withdrawn since.
module ExchangeReadiness {
  import opened Common
  import opened ExchangeProtocol
  import opened ExchangeStructure

  predicate Done(s: Status) { s.Completed? || s.ActivationSaved? }

  // The client holds a read that showed the exchange uncommitted.
  predicate InLoop(c: Client) {
    c.At? && !c.point.Preparing? && !c.point.Answered? && !c.point.Finish?
  }

  // Ready, or taken back since the client's last read.
  predicate ReadyOrWithdrawn(w: World, x: nat, k: nat)
    requires x < |w.server.exchanges|
  {
    k in w.server.exchanges[x].ready || Label(x, k) in w.withdrawn
  }

  // Withdrawn labels were taken back and are not ready.
  ghost predicate WithdrawnOk(w: World) {
    && w.withdrawn <= w.takenBack
    && (forall l | l in w.withdrawn :: l.exchange < |w.server.exchanges| && l.slot !in w.server.exchanges[l.exchange].ready)
  }

  // A target journaled as done is ready, or was taken back at some time.
  ghost predicate JournalReady(w: World) {
    w.journal.Some? && w.journal.value.exchange.Some? && w.journal.value.exchange.value < |w.server.exchanges| ==>
      var x := w.journal.value.exchange.value;
      forall k | 0 <= k < |w.journal.value.targets| ::
        Done(w.journal.value.targets[k].status) ==> k in w.server.exchanges[x].ready || Label(x, k) in w.takenBack
  }

  ghost predicate SeenReady(w: World, x: nat, seen: set<nat>)
    requires x < |w.server.exchanges|
  {
    forall k | k in seen :: ReadyOrWithdrawn(w, x, k)
  }

  // Targets still to be looked at that are done were seen ready, or taken back.
  ghost predicate DoneSeen(w: World, j: Journal, x: nat, c: Client)
    requires c.At?
  {
    forall k | c.slot <= k < |j.targets| :: Done(j.targets[k].status) ==> k in c.seen || Label(x, k) in w.takenBack
  }

  // Printing starts, or was started, from a done target only if it was taken back.
  ghost predicate StartOk(w: World, x: nat, c: Client, j: Journal)
    requires c.At?
  {
    && (c.point.Printing? && c.slot < |j.targets| && Done(j.targets[c.slot].status) ==> Label(x, c.slot) in w.takenBack)
    && (c.point.Submitting? && Done(c.point.from) ==> Label(x, c.slot) in w.takenBack)
  }

  ghost predicate LoopReady(w: World, x: nat, c: Client, j: Journal)
    requires c.At? && x < |w.server.exchanges|
  {
    && (!c.point.Activating? && !c.point.Checking? ==> SeenReady(w, x, c.seen) && DoneSeen(w, j, x, c))
    && (c.point.CompleteAnswered? ==> ReadyOrWithdrawn(w, x, c.slot) && (j.op.Single? ==> c.slot in c.seen))
    && (c.point.Activating? ==> forall k | 0 <= k < w.server.exchanges[x].count :: ReadyOrWithdrawn(w, x, k))
    && StartOk(w, x, c, j)
  }

  ghost predicate ClientReady(w: World) {
    && (w.client.At? && w.client.point.Answered? && w.client.point.x < |w.server.exchanges| ==>
          SeenReady(w, w.client.point.x, w.client.seen))
    && (InLoop(w.client) ==> OnExchange(w) && LoopReady(w, w.journal.value.exchange.value, w.client, w.journal.value))
  }

  ghost predicate LogsReady(w: World) {
    && (forall i | 0 <= i < |w.activations| :: w.activations[i].missing == w.activations[i].withdrawn)
    && (forall i | 0 <= i < |w.printed| :: Done(w.printed[i].from) ==> w.printed[i].target in w.takenBack)
  }

  ghost predicate Readiness(w: World) {
    WithdrawnOk(w) && JournalReady(w) && ClientReady(w) && LogsReady(w)
  }

  // ------------------------------------------------------------ the environment

  // Whatever was ready stays ready, or is withdrawn; whatever was withdrawn stays
  // so, or is ready.
  ghost predicate Follows(w: World, v: World) {
    && Grows(w.server, v.server) && w.takenBack <= v.takenBack
    && (forall x, k | 0 <= x < |w.server.exchanges| && ReadyOrWithdrawn(w, x, k) :: ReadyOrWithdrawn(v, x, k))
  }

  lemma EnvironmentFollows(w: World, step: Step)
    requires ServerOk(w.server) && WithdrawnOk(w)
    ensures Follows(w, Environment(w, step)) && WithdrawnOk(Environment(w, step))
  {
    ForeignGrows(w.server, step);
  }

  lemma FollowingReady(w: World, v: World)
    requires Structure(w) && Readiness(w) && Follows(w, v) && WithdrawnOk(v)
    requires v.journal == w.journal && v.client == w.client && v.printed == w.printed && v.activations == w.activations
    ensures Readiness(v)
  {
    if w.journal.Some? && w.journal.value.exchange.Some? {
      var x := w.journal.value.exchange.value;
      forall k | 0 <= k < |w.journal.value.targets| && Done(w.journal.value.targets[k].status)
        ensures k in v.server.exchanges[x].ready || Label(x, k) in v.takenBack
      {
        if k in w.server.exchanges[x].ready {
          assert ReadyOrWithdrawn(w, x, k);
          assert ReadyOrWithdrawn(v, x, k);
        }
      }
    }
  }

  // ------------------------------------------------------------ client steps

  // Saving one target and moving on.
  lemma SaveReady(w: World, p: Progress, phase: Phase, c: Client)
    requires Structure(w) && Readiness(w) && OnTarget(w) && InLoop(w.client) && InLoop(c)
    requires !w.client.point.Activating? && !w.client.point.Checking? && !c.point.Checking? && !c.point.CompleteAnswered?
    requires var x := w.journal.value.exchange.value;
             && (Done(p.status) ==> ReadyOrWithdrawn(w, x, w.client.slot) || Label(x, w.client.slot) in w.takenBack)
             && w.client.seen <= c.seen && SeenReady(w, x, c.seen)
             && (c.slot == w.client.slot + 1 || (c.slot == w.client.slot && (Done(p.status) ==> c.slot in c.seen)))
             && (c.point.Activating? ==> forall k | 0 <= k < w.server.exchanges[x].count :: ReadyOrWithdrawn(w, x, k))
             && (c.point.Printing? ==> c.slot == w.client.slot && !Done(p.status))
             && (c.point.Submitting? && Done(c.point.from) ==> c.slot == w.client.slot && Label(x, c.slot) in w.takenBack)
    ensures Readiness(SaveTarget(w, p, phase, c))
  {
    var x, v := w.journal.value.exchange.value, SaveTarget(w, p, phase, c);
    assert forall k :: ReadyOrWithdrawn(v, x, k) == ReadyOrWithdrawn(w, x, k);
  }

  lemma SeenLookReady(w: World)
    requires Structure(w) && Readiness(w) && OnTarget(w) && w.client.point.Target? && w.client.slot in w.client.seen
    ensures Readiness(LookAtTarget(w))
  {
    var p, c := Current(w), w.client;
    assert ReadyOrWithdrawn(w, w.journal.value.exchange.value, c.slot);
    if !w.journal.value.op.Single? {
      SaveReady(w, p.(status := Completed), Open, c.(slot := c.slot + 1));
    } else if !p.status.FailureAckPending? {
      SaveReady(w, p.(status := ActivationSaved), ActivatePending, c.(point := Activating));
    }
  }

  lemma LookReady(w: World)
    requires Structure(w) && Readiness(w) && OnTarget(w) && w.client.point.Target?
    ensures Readiness(LookAtTarget(w))
  {
    var p, c := Current(w), w.client;
    CurrentOk(w);
    if c.slot in c.seen {
      SeenLookReady(w);
    } else if !p.status.FailureAckPending? && (p.attempt.None? || p.status.PrintFailed?) && !p.status.RequestPending? {
      SaveReady(w, Progress(RequestPending, p.no + 1, None, Some(KeyFor(w, p.no + 1))), Open, c.(point := Requesting));
    }
  }

  // The answer to the single workflow's report is a fresh read.
  lemma SingleCompleteReady(w: World)
    requires Structure(w) && Readiness(w) && OnTarget(w) && w.client.point.Completing? && w.journal.value.op.Single?
    ensures Readiness(CallComplete(w))
  {
  }

  lemma CompleteReady(w: World)
    requires Structure(w) && Readiness(w) && OnTarget(w) && w.client.point.Completing?
    ensures Readiness(CallComplete(w))
  {
    var v := CallComplete(w);
    if w.journal.value.op.Single? {
      SingleCompleteReady(w);
    } else if v.server != w.server {
      FollowingReady(w, v.(client := w.client));
    }
  }

  lemma SaveCompletedReady(w: World)
    requires Structure(w) && Readiness(w) && OnTarget(w) && w.client.point.CompleteAnswered?
    ensures Readiness(SaveCompleted(w))
  {
    var p, c := Current(w).(status := Completed), w.client;
    if w.journal.value.op.Single? {
      SaveReady(w, p, Open, c.(point := Target));
    } else {
      SaveReady(w, p, Open, c.(point := Target, slot := c.slot + 1));
    }
  }

  lemma PrintReady(w: World, ok: bool)
    requires Structure(w) && Readiness(w) && OnTarget(w) && w.client.point.Printing?
    ensures Readiness(StartPrint(w, ok))
  {
    var p, c := Current(w), w.client;
    if p.status.Starting? && !c.confirm {
    } else if p.status.LocalSucceeded? || p.status.CompletePending? {
      SaveReady(w, p.(status := CompletePending), Open, c.(point := Completing));
    } else if ok {
      SaveReady(w, p.(status := Starting), Open, c.(point := Submitting(p.status)));
    }
  }

  lemma SubmitReady(w: World, ok: bool)
    requires Structure(w) && Readiness(w) && OnTarget(w) && w.client.point.Submitting?
    ensures Readiness(Submit(w, ok))
  {
  }

  lemma ProofReady(w: World, ok: bool)
    requires Structure(w) && Readiness(w) && OnTarget(w) && (w.client.point.Submitted? || w.client.point.Proven? || w.client.point.GotAttempt?)
    ensures Readiness(GoTarget(w, ok))
  {
    var p, c := Current(w), w.client;
    match c.point {
      case Submitted => SaveReady(w, p.(status := LocalSucceeded), Open, c.(point := Proven));
      case Proven => SaveReady(w, p.(status := CompletePending), Open, c.(point := Completing));
      case GotAttempt => SaveReady(w, p.(status := PrintRequested, attempt := p.key), Open, c.(point := Printing));
    }
  }

  lemma FailureReady(w: World, ok: bool)
    requires Structure(w) && Readiness(w) && OnTarget(w) && (w.client.point.Raised? || w.client.point.FailureAcked?)
    ensures Readiness(GoTarget(w, ok))
  {
    var p, c := Current(w), w.client;
    if c.point.Raised? {
      SaveReady(w, p.(status := FailureAckPending), Open, c.(point := FailureAcking));
    } else {
      SaveReady(w, p.(status := PrintFailed), Open, c.(point := FailureAcked));
    }
  }

  lemma CallsReady(w: World, ok: bool)
    requires Structure(w) && Readiness(w) && OnTarget(w) && (w.client.point.Requesting? || w.client.point.FailureAcking?)
    ensures Readiness(GoTarget(w, ok))
  {
  }

  lemma GoTargetReady(w: World, ok: bool)
    requires Structure(w) && Readiness(w) && OnTarget(w) && InLoop(w.client)
    requires !w.client.point.Checking? && !w.client.point.Activating?
    ensures Readiness(GoTarget(w, ok))
  {
    var c := w.client;
    if c.point.Submitted? || c.point.Proven? || c.point.GotAttempt? {
      ProofReady(w, ok);
    } else if c.point.Raised? || c.point.FailureAcked? {
      FailureReady(w, ok);
    } else if c.point.Requesting? || c.point.FailureAcking? {
      CallsReady(w, ok);
    } else {
      GoPrintReady(w, ok);
    }
  }

  predicate PrintPoint(p: Point) { p.Target? || p.Printing? || p.Submitting? || p.Completing? || p.CompleteAnswered? }

  lemma GoPrintReady(w: World, ok: bool)
    requires Structure(w) && Readiness(w) && OnTarget(w) && PrintPoint(w.client.point)
    ensures Readiness(GoTarget(w, ok))
  {
    match w.client.point {
      case Target => LookReady(w);
      case Printing => PrintReady(w, ok);
      case Submitting(_) => SubmitReady(w, ok);
      case Completing => CompleteReady(w);
      case CompleteAnswered => SaveCompletedReady(w);
    }
  }

  // At the moment of an activate, the targets that are not ready are exactly those
  // withdrawn since the last read.
  lemma MissingIsWithdrawn(w: World, x: nat)
    requires WithdrawnOk(w) && x < |w.server.exchanges|
    requires forall k | 0 <= k < w.server.exchanges[x].count :: ReadyOrWithdrawn(w, x, k)
    ensures Missing(w.server.exchanges[x]) == Withdrawn(w.withdrawn, x, w.server.exchanges[x].count)
  {
    forall k | 0 <= k < w.server.exchanges[x].count
      ensures k !in w.server.exchanges[x].ready <==> Label(x, k) in w.withdrawn
    {
      assert ReadyOrWithdrawn(w, x, k);
    }
  }

  lemma ActivateReady(w: World, served: bool)
    requires Structure(w) && Readiness(w) && w.client.At? && w.client.point.Activating?
    ensures OnExchange(w) && Readiness(CallActivate(w, served))
  {
    MissingIsWithdrawn(w, w.journal.value.exchange.value);
  }

  lemma PrepareReady(w: World, count: nat)
    requires Structure(w) && Readiness(w) && w.client.At? && w.client.point.Preparing?
    ensures w.journal.value.exchange.None? ==> Readiness(CallPrepare(w, count))
    ensures w.journal.value.exchange.Some? ==> OnExchange(w) && Readiness(Read(w, w.journal.value.exchange.value))
  {
  }

  lemma AnsweredReady(w: World, x: nat)
    requires Structure(w) && Readiness(w) && w.client.At? && w.client.point == Answered(x)
    ensures x < |w.server.exchanges| && Readiness(SavePrepared(w, x))
  {
  }

  lemma CheckedReady(w: World, ok: bool)
    requires Structure(w) && Readiness(w) && w.client.At?
    ensures w.client.point.Checking? ==> OnExchange(w) && Readiness(CheckReady(w))
    ensures w.client.point.Finish? ==> OnExchange(w) && Readiness(SaveCommitted(w, ok))
    ensures w.client.point.Target? ==> Readiness(Move(w, Checking))
  {
  }

  lemma ActReady(w: World, ok: bool, count: nat)
    requires Structure(w) && Readiness(w) && w.client.At?
    ensures Readiness(Go(w, ok, count))
  {
    if w.client.point.Preparing? {
      PrepareReady(w, count);
    } else if w.client.point.Answered? {
      AnsweredReady(w, w.client.point.x);
    } else if w.client.point.Activating? {
      ActivateReady(w, ok);
    } else {
      ActLoopReady(w, ok, count);
    }
  }

  lemma ActLoopReady(w: World, ok: bool, count: nat)
    requires Structure(w) && Readiness(w) && w.client.At?
    requires !w.client.point.Preparing? && !w.client.point.Answered? && !w.client.point.Activating?
    ensures Readiness(Go(w, ok, count))
  {
    CheckedReady(w, ok);
    if OnTarget(w) && !w.client.point.Checking? && !w.client.point.Finish? {
      GoTargetReady(w, ok);
    }
  }

  lemma BeginReady(w: World, step: Step)
    requires Structure(w) && Readiness(w) && (step.DoSingle? || step.DoReconcile?)
    ensures Readiness(Apply(w, step))
  {
  }

  lemma PhaseReady(w: World, x: nat)
    requires Structure(w) && Readiness(w)
    ensures Readiness(Stop(w)) && Readiness(Refuse(w)) && Readiness(Refreshed(w, x))
  {
  }

  lemma EnvironmentReady(w: World, step: Step)
    requires Structure(w) && Readiness(w)
    ensures Readiness(Environment(w, step))
  {
    EnvironmentFollows(w, step);
    FollowingReady(w, Environment(w, step));
  }

  lemma StepKeepsReadiness(w: World, step: Step)
    requires Structure(w) && Readiness(w)
    ensures Readiness(Apply(w, step))
  {
    if step.DoSingle? || step.DoReconcile? {
      BeginReady(w, step);
    } else if step.Act? {
      if w.client.At? {
        ActReady(w, step.ok, step.count);
      }
    } else {
      PhaseReady(w, if step.ConfirmRefresh? then step.x else 0);
      EnvironmentReady(w, step);
    }
  }

  lemma {:induction false} RunKeepsReadiness(steps: seq<Step>)
    ensures Readiness(Run(Initial, steps))
  {
    if steps != [] {
      RunKeepsReadiness(steps[..|steps| - 1]);
      RunKeepsStructure(steps[..|steps| - 1]);
      StepKeepsReadiness(Run(Initial, steps[..|steps| - 1]), steps[|steps| - 1]);
    }
  }

  // ------------------------------------------------------------ results

  // In every run, an activate is sent with a target not ready if and only if the
  // server took that target back between the client's last read and the call.
  lemma ActivateMissesExactly(steps: seq<Step>, i: nat, k: nat)
    requires i < |Run(Initial, steps).activations|
    ensures var a := Run(Initial, steps).activations[i]; k in a.missing <==> k in a.withdrawn
  {
    RunKeepsReadiness(steps);
  }

  lemma {:induction false} SteadyTakesNothingBack(steps: seq<Step>)
    requires Steady(steps)
    ensures Run(Initial, steps).takenBack == {}
  {
    if steps != [] {
      SteadyTakesNothingBack(steps[..|steps| - 1]);
      StepTakesBack(Run(Initial, steps[..|steps| - 1]), steps[|steps| - 1]);
    }
  }

  lemma StepTakesBack(w: World, step: Step)
    requires !step.Unready?
    ensures Apply(w, step).takenBack == w.takenBack
  {
    if step.Act? && OnTarget(w) {
      TargetTakesBack(w, step.ok);
    }
  }

  lemma TargetTakesBack(w: World, ok: bool)
    requires OnTarget(w)
    ensures GoTarget(w, ok).takenBack == w.takenBack
  {
  }

  // Against a server that never takes a target back, every activate is sent while
  // all targets are READY.
  lemma ActivateOnlyWhenReady(steps: seq<Step>, i: nat)
    requires Steady(steps) && i < |Run(Initial, steps).activations|
    ensures Run(Initial, steps).activations[i].missing == {}
  {
    RunKeepsReadiness(steps);
    SteadyActivates(steps);
  }

  ghost predicate NoneWithdrawn(log: seq<Activation>) {
    forall i | 0 <= i < |log| :: log[i].withdrawn == {}
  }

  lemma {:induction false} SteadyActivates(steps: seq<Step>)
    requires Steady(steps)
    ensures NoneWithdrawn(Run(Initial, steps).activations)
  {
    if steps != [] {
      var before := steps[..|steps| - 1];
      SteadyActivates(before);
      SteadyTakesNothingBack(before);
      RunKeepsReadiness(before);
      StepActivates(Run(Initial, before), steps[|steps| - 1]);
    }
  }

  lemma StepActivates(w: World, step: Step)
    requires w.withdrawn == {} && NoneWithdrawn(w.activations)
    ensures NoneWithdrawn(Apply(w, step).activations)
  {
    if step.Act? && OnTarget(w) {
      TargetActivates(w, step.ok);
    }
  }

  lemma TargetActivates(w: World, ok: bool)
    requires OnTarget(w)
    ensures GoTarget(w, ok).activations == w.activations
  {
  }
}
