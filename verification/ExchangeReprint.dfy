// What the next execution of a journal at rest does, and why at-most-once printing
// needs a server that keeps a ready target ready: the journal of a completed target
// keeps its attempt, so a target that is taken back is printed again under the same
// attempt number, with nobody asked.
module ExchangeReprint {
  import opened Common
  import opened ExchangeProtocol
  import opened ExchangeStructure
  import opened ExchangeReadiness
  import opened ExchangePrinting
  import opened ExchangeProvenance

  lemma RunStep(w: World, steps: seq<Step>, step: Step)
    ensures Run(w, steps + [step]) == Apply(Run(w, steps), step)
  {
  }

  // A client at rest over an uncommitted exchange.
  ghost predicate AtRest(w: World, x: nat) {
    && w.client.Idle? && Active(w.journal) && w.journal.value.exchange == Some(x)
    && x < |w.server.exchanges| && !w.server.exchanges[x].committed && w.journal.value.targets != []
  }

  // The call that resumes its journal, with the operator's confirmation or without.
  function Resuming(op: Operation, confirm: bool): Step {
    if op.Single? then DoSingle(op.master, "", 0, confirm) else DoReconcile(None, None, confirm)
  }

  // The client in its loop at slot k, with nothing printed since w.
  ghost predicate Reached(w: World, v: World, k: nat, confirm: bool) {
    && v.client.At? && v.client.point.Target? && v.client.slot == k && v.client.confirm == confirm
    && v.printed == w.printed && v.sent == w.sent && v.reports == w.reports && v.journal.Some? && w.journal.Some? && v.journal.value.op == w.journal.value.op
    && v.journal.value.exchange == w.journal.value.exchange && |v.journal.value.targets| == |w.journal.value.targets|
    && (forall m | k <= m < |w.journal.value.targets| :: v.journal.value.targets[m] == w.journal.value.targets[m])
  }

  // Targets seen ready are passed over; a single exchange has none to pass.
  lemma {:induction false} PassReady(w: World, v: World, x: nat, k: nat, goal: nat, confirm: bool) returns (steps: seq<Step>)
    requires AtRest(w, x) && Reached(w, v, k, confirm) && v.server.exchanges == w.server.exchanges
    requires k <= goal < |w.journal.value.targets| && (w.journal.value.op.Single? ==> goal == 0)
    requires forall m | k <= m < goal :: m in v.client.seen
    ensures Reached(w, Run(v, steps), goal, confirm) && Run(v, steps).client.seen == v.client.seen && Run(v, steps).server == v.server
    decreases goal - k
  {
    if k == goal {
      steps := [];
    } else {
      var u := Apply(v, Act(true, 0));
      assert u == LookAtTarget(v);
      var rest := PassReady(w, u, x, k + 1, goal, confirm);
      RunExtends(v, [Act(true, 0)], rest);
      RunStep(v, [], Act(true, 0));
      steps := [Act(true, 0)] + rest;
    }
  }

  // Resuming and reading leads to the first target.
  lemma ResumeReads(w: World, x: nat, confirm: bool)
    requires AtRest(w, x)
    ensures var v := Apply(Apply(w, Resuming(w.journal.value.op, confirm)), Act(true, 0));
            Reached(w, v, 0, confirm) && v.server == w.server && v.client.seen == w.server.exchanges[x].ready
  {
    var resumed := Apply(w, Resuming(w.journal.value.op, confirm));
    assert resumed == Resume(w, confirm);
    assert Apply(resumed, Act(true, 0)) == Read(resumed, x);
  }

  // Taking the target back leaves the rest of the world at rest.
  lemma TakingBack(w: World, x: nat, k: nat)
    requires AtRest(w, x)
    ensures var v := Apply(w, Unready(x, k));
            && AtRest(v, x) && v.journal == w.journal && v.printed == w.printed
            && v.server.exchanges[x].ready == w.server.exchanges[x].ready - {k}
  {
  }

  // From any state at rest over targets ready up to k, the next execution looks at k.
  lemma ReachTarget(w: World, x: nat, k: nat, confirm: bool) returns (steps: seq<Step>)
    requires AtRest(w, x) && k < |w.journal.value.targets| && (w.journal.value.op.Single? ==> k == 0)
    requires forall m | 0 <= m < k :: m in w.server.exchanges[x].ready
    ensures Reached(w, Run(w, steps), k, confirm) && Run(w, steps).server == w.server
    ensures Run(w, steps).client.seen == w.server.exchanges[x].ready
  {
    var resume := Resuming(w.journal.value.op, confirm);
    RunStep(w, [], resume);
    RunStep(w, [resume], Act(true, 0));
    assert [] + [resume] == [resume] && [resume] + [Act(true, 0)] == [resume, Act(true, 0)];
    ResumeReads(w, x, confirm);
    var start := [resume, Act(true, 0)];
    var pass := PassReady(w, Run(w, start), x, 0, k, confirm);
    RunExtends(w, start, pass);
    steps := start + pass;
  }

  // The target a client looks at, not seen ready, goes to the printer.
  ghost predicate Prints(p: Progress, confirm: bool) {
    p.attempt.Some? && (p.status.PrintRequested? || Done(p.status) || (p.status.Starting? && confirm))
  }

  lemma LookStarts(w: World, v: World, x: nat, k: nat, confirm: bool)
    requires Structure(w) && AtRest(w, x) && Reached(w, v, k, confirm) && k < |w.journal.value.targets| && k !in v.client.seen
    requires v.server == w.server && Prints(w.journal.value.targets[k], confirm)
    ensures var a := Move(v, ExchangeProtocol.Printing);
            && OnTarget(v) && Current(v) == w.journal.value.targets[k]
            && Apply(v, Act(true, 0)) == a
            && OnTarget(a) && Apply(a, Act(true, 0)) == SaveStatus(a, Starting, Submitting(w.journal.value.targets[k].status))
  {
    assert TargetsOk(w.journal.value, x);
    assert v.journal.value.targets[k] == w.journal.value.targets[k];
  }

  lemma PrintHere(w: World, v: World, x: nat, k: nat, confirm: bool) returns (steps: seq<Step>)
    requires Structure(w) && AtRest(w, x) && Reached(w, v, k, confirm) && k < |w.journal.value.targets| && k !in v.client.seen
    requires v.server == w.server && Prints(w.journal.value.targets[k], confirm)
    ensures var p := w.journal.value.targets[k];
            Run(v, steps).printed == v.printed + [Submission(Label(x, k), p.no, confirm, p.status, true)]
  {
    var step := Act(true, 0);
    LookStarts(w, v, x, k, confirm);
    RunStep(v, [], step);
    RunStep(v, [step], step);
    RunStep(v, [step, step], step);
    assert [step] + [step] == [step, step] && [step, step] + [step] == [step, step, step] && [] + [step] == [step];
    var a := Move(v, ExchangeProtocol.Printing);
    var b := SaveStatus(a, Starting, Submitting(w.journal.value.targets[k].status));
    assert Apply(b, step) == Submit(b, true);
    steps := [step, step, step];
  }

  // From any state at rest, in either workflow: a target that was requested, that is
  // journaled as done, or that was found at its start and confirmed, and is not ready
  // while the ones before it are, is submitted by the next execution.
  lemma NextTargetPrints(w: World, x: nat, k: nat, confirm: bool) returns (steps: seq<Step>)
    requires Structure(w) && AtRest(w, x) && k < |w.journal.value.targets| && Prints(w.journal.value.targets[k], confirm)
    requires k !in w.server.exchanges[x].ready && forall m | 0 <= m < k :: m in w.server.exchanges[x].ready
    ensures var p := w.journal.value.targets[k];
            Run(w, steps).printed == w.printed + [Submission(Label(x, k), p.no, confirm, p.status, true)]
  {
    var start := ReachTarget(w, x, k, confirm);
    var last := PrintHere(w, Run(w, start), x, k, confirm);
    RunExtends(w, start, last);
    steps := start + last;
  }

  // Found at its start and not confirmed, it is not submitted: the execution stops
  // there, with the journal as it was.
  lemma UnconfirmedStops(w: World, x: nat, k: nat) returns (steps: seq<Step>)
    requires Structure(w) && AtRest(w, x) && k < |w.journal.value.targets| && w.journal.value.targets[k].status.Starting?
    requires k !in w.server.exchanges[x].ready && forall m | 0 <= m < k :: m in w.server.exchanges[x].ready
    ensures var v := Run(w, steps);
            v.client.Idle? && v.printed == w.printed && v.server == w.server && v.journal.Some?
            && |v.journal.value.targets| == |w.journal.value.targets| && v.journal.value.targets[k] == w.journal.value.targets[k]
  {
    var step := Act(true, 0);
    var start := ReachTarget(w, x, k, false);
    var v := Run(w, start);
    assert TargetsOk(w.journal.value, x);
    assert v.journal.value.targets[k] == w.journal.value.targets[k];
    var a := Move(v, ExchangeProtocol.Printing);
    assert Apply(v, step) == a;
    assert Apply(a, step) == Stop(a);
    RunStep(w, start, step);
    RunStep(w, start + [step], step);
    steps := start + [step] + [step];
  }

  // The number the target is requested under: the journaled one while its request is
  // pending, the next one for a target never requested or failed.
  function RequestNo(p: Progress): nat {
    if p.status.RequestPending? then p.no else p.no + 1
  }

  lemma LookRequests(w: World, v: World, x: nat, k: nat)
    requires Structure(w) && AtRest(w, x) && Reached(w, v, k, false) && k < |w.journal.value.targets| && k !in v.client.seen
    requires v.server == w.server && v.sent == w.sent
    requires var p := w.journal.value.targets[k]; p.status.Prepared? || p.status.RequestPending? || p.status.PrintFailed?
    ensures var a, no := Apply(v, Act(true, 0)), RequestNo(w.journal.value.targets[k]);
            && OnTarget(a) && a.client.point.Requesting? && a.sent == w.sent && CurrentLabel(a) == Label(x, k)
            && Current(a) == Progress(RequestPending, no, None, Some(PrintKey(w.journal.value.op.Single?, Label(x, k), no)))
  {
    assert TargetsOk(w.journal.value, x);
    assert ProgressOk(w.journal.value.targets[k], PrintKey(w.journal.value.op.Single?, Label(x, k), w.journal.value.targets[k].no));
    assert v.journal.value.targets[k] == w.journal.value.targets[k];
    assert Apply(v, Act(true, 0)) == LookAtTarget(v);
  }

  lemma CallRequests(a: World)
    requires OnTarget(a) && a.client.point.Requesting? && Current(a).key.Some?
    ensures Apply(a, Act(true, 0)).sent == a.sent + [Request(CurrentLabel(a), Current(a).no, Current(a).key.value)]
  {
    assert Apply(a, Act(true, 0)) == CallRequest(a);
  }

  // From any state at rest, in either workflow: the first target not ready is requested
  // by the next execution, again under its pending number, or under the next number if
  // it was never requested or its print failed.
  lemma NextTargetRequests(w: World, x: nat, k: nat) returns (steps: seq<Step>)
    requires Structure(w) && AtRest(w, x) && k < |w.journal.value.targets|
    requires var p := w.journal.value.targets[k]; p.status.Prepared? || p.status.RequestPending? || p.status.PrintFailed?
    requires k !in w.server.exchanges[x].ready && forall m | 0 <= m < k :: m in w.server.exchanges[x].ready
    ensures var no := RequestNo(w.journal.value.targets[k]);
            Run(w, steps).sent == w.sent + [Request(Label(x, k), no, PrintKey(w.journal.value.op.Single?, Label(x, k), no))]
  {
    var start := ReachTarget(w, x, k, false);
    var step := Act(true, 0);
    LookRequests(w, Run(w, start), x, k);
    RunStep(w, start, step);
    CallRequests(Run(w, start + [step]));
    RunStep(w, start + [step], step);
    steps := start + [step] + [step];
  }

  lemma LookReports(w: World, v: World, x: nat, k: nat)
    requires Structure(w) && AtRest(w, x) && Reached(w, v, k, false) && k < |w.journal.value.targets| && k !in v.client.seen
    requires v.server == w.server && v.reports == w.reports
    requires var s := w.journal.value.targets[k].status; s.LocalSucceeded? || s.CompletePending?
    ensures var b := Apply(Apply(v, Act(true, 0)), Act(true, 0));
            && OnTarget(b) && b.client.point.Completing? && b.reports == w.reports && b.printed == w.printed && CurrentLabel(b) == Label(x, k)
            && Current(b).no == w.journal.value.targets[k].no && Current(b).attempt.Some?
  {
    assert TargetsOk(w.journal.value, x);
    assert ProgressOk(w.journal.value.targets[k], PrintKey(w.journal.value.op.Single?, Label(x, k), w.journal.value.targets[k].no));
    assert v.journal.value.targets[k] == w.journal.value.targets[k];
    var a := Move(v, ExchangeProtocol.Printing);
    assert Apply(v, Act(true, 0)) == a;
    assert Apply(a, Act(true, 0)) == StartPrint(a, true);
  }

  lemma CallReports(b: World)
    requires OnTarget(b) && Current(b).attempt.Some? && (b.client.point.Completing? || b.client.point.FailureAcking?)
    ensures var c := Apply(b, Act(true, 0));
            c.reports == b.reports + [Report(CurrentLabel(b), Current(b).no, b.client.point.Completing?)] && c.printed == b.printed
  {
    assert Apply(b, Act(true, 0)) == if b.client.point.Completing? then CallComplete(b) else CallFailed(b);
  }

  // A first target not ready that was printed is reported by the next execution, and
  // not printed again.
  lemma NextTargetReports(w: World, x: nat, k: nat) returns (steps: seq<Step>)
    requires Structure(w) && AtRest(w, x) && k < |w.journal.value.targets|
    requires var s := w.journal.value.targets[k].status; s.LocalSucceeded? || s.CompletePending?
    requires k !in w.server.exchanges[x].ready && forall m | 0 <= m < k :: m in w.server.exchanges[x].ready
    ensures Run(w, steps).reports == w.reports + [Report(Label(x, k), w.journal.value.targets[k].no, true)]
    ensures Run(w, steps).printed == w.printed
  {
    var start := ReachTarget(w, x, k, false);
    var step := Act(true, 0);
    LookReports(w, Run(w, start), x, k);
    RunStep(w, start, step);
    RunStep(w, start + [step], step);
    CallReports(Run(w, start + [step] + [step]));
    RunStep(w, start + [step] + [step], step);
    steps := start + [step] + [step] + [step];
  }

  lemma LookFails(w: World, v: World, x: nat, k: nat)
    requires Structure(w) && AtRest(w, x) && Reached(w, v, k, false) && k < |w.journal.value.targets| && k !in v.client.seen
    requires v.server == w.server && v.reports == w.reports && w.journal.value.targets[k].status.FailureAckPending?
    ensures var a := Apply(v, Act(true, 0));
            && OnTarget(a) && a.client.point.FailureAcking? && a.reports == w.reports && a.printed == w.printed && CurrentLabel(a) == Label(x, k)
            && Current(a).no == w.journal.value.targets[k].no && Current(a).attempt.Some?
  {
    assert TargetsOk(w.journal.value, x);
    assert ProgressOk(w.journal.value.targets[k], PrintKey(w.journal.value.op.Single?, Label(x, k), w.journal.value.targets[k].no));
    assert v.journal.value.targets[k] == w.journal.value.targets[k];
    assert Apply(v, Act(true, 0)) == LookAtTarget(v);
  }

  // One whose failure is still to be told is reported as failed.
  lemma NextTargetFails(w: World, x: nat, k: nat) returns (steps: seq<Step>)
    requires Structure(w) && AtRest(w, x) && k < |w.journal.value.targets| && w.journal.value.targets[k].status.FailureAckPending?
    requires k !in w.server.exchanges[x].ready && forall m | 0 <= m < k :: m in w.server.exchanges[x].ready
    ensures Run(w, steps).reports == w.reports + [Report(Label(x, k), w.journal.value.targets[k].no, false)]
    ensures Run(w, steps).printed == w.printed
  {
    var start := ReachTarget(w, x, k, false);
    var step := Act(true, 0);
    LookFails(w, Run(w, start), x, k);
    RunStep(w, start, step);
    CallReports(Run(w, start + [step]));
    RunStep(w, start + [step], step);
    steps := start + [step] + [step];
  }

  // Once the server takes back a target journaled as done under an attempt, the next
  // unconfirmed execution submits it again under the same attempt number.
  lemma TakenBackPrintsAgain(w: World, x: nat, k: nat) returns (steps: seq<Step>)
    requires Structure(w) && AtRest(w, x) && k < |w.journal.value.targets|
    requires Done(w.journal.value.targets[k].status) && w.journal.value.targets[k].attempt.Some?
    requires forall m | 0 <= m < k :: m in w.server.exchanges[x].ready
    ensures var p := w.journal.value.targets[k];
            Run(w, steps).printed == w.printed + [Submission(Label(x, k), p.no, false, p.status, true)]
  {
    TakingBack(w, x, k);
    StepKeepsStructure(w, Unready(x, k));
    RunStep(w, [], Unready(x, k));
    assert [] + [Unready(x, k)] == [Unready(x, k)];
    var rest := NextTargetPrints(Run(w, [Unready(x, k)]), x, k, false);
    RunExtends(w, [Unready(x, k)], rest);
    steps := [Unready(x, k)] + rest;
  }

  // ------------------------------------------------------------ what is ready is committed

  // About to activate, with nothing printed since w and every target ready.
  ghost predicate Activates(w: World, v: World, x: nat) {
    && OnExchange(v) && v.client.point.Activating? && v.journal.value.exchange == Some(x)
    && v.printed == w.printed && v.server == w.server
  }

  lemma SingleActivates(w: World, v: World, x: nat)
    requires Structure(w) && AtRest(w, x) && Reached(w, v, 0, false) && v.server == w.server && 0 in v.client.seen
    requires w.journal.value.op.Single? && !w.journal.value.targets[0].status.FailureAckPending?
    ensures Activates(w, Run(v, [Act(true, 0)]), x)
  {
    RunStep(v, [], Act(true, 0));
    assert [] + [Act(true, 0)] == [Act(true, 0)];
    assert v.journal.value.targets[0] == w.journal.value.targets[0];
    assert Apply(v, Act(true, 0)) == LookAtTarget(v);
  }

  lemma ReconcileActivates(w: World, v: World, x: nat)
    requires Structure(w) && AtRest(w, x) && Reached(w, v, |w.journal.value.targets| - 1, false) && v.server == w.server
    requires v.client.slot in v.client.seen && w.journal.value.op.Reconcile? && AllReady(w.server.exchanges[x])
    ensures Activates(w, Run(v, [Act(true, 0), Act(true, 0), Act(true, 0)]), x)
  {
    var step := Act(true, 0);
    var a := LookAtTarget(v);
    assert Apply(v, step) == a;
    var b := Move(a, Checking);
    assert Apply(a, step) == b;
    assert Apply(b, step) == CheckReady(b);
    RunStep(v, [], step);
    RunStep(v, [step], step);
    RunStep(v, [step, step], step);
    assert [] + [step] == [step] && [step] + [step] == [step, step] && [step, step] + [step] == [step, step, step];
  }

  lemma ActivationCommits(w: World, v: World, x: nat)
    requires Activates(w, v, x) && AllReady(w.server.exchanges[x])
    ensures var u := Run(v, [Act(true, 0), Act(true, 0)]);
            u.client.Idle? && u.journal.Some? && u.journal.value.phase.CommittedLocally? && x < |u.server.exchanges| && u.server.exchanges[x].committed
            && u.printed == w.printed
  {
    var step := Act(true, 0);
    assert Apply(v, step) == CallActivate(v, true);
    RunStep(v, [], step);
    RunStep(v, [step], step);
    assert [] + [step] == [step] && [step] + [step] == [step, step];
  }

  // From any state at rest, in either workflow: once every target is ready the next
  // execution, left alone, commits the exchange at the server and in the journal, and
  // prints nothing.  Only a single exchange with a failure still to report goes on to
  // report it.
  lemma ReadyCommits(w: World, x: nat) returns (steps: seq<Step>)
    requires Structure(w) && AtRest(w, x) && forall k | 0 <= k < w.server.exchanges[x].count :: k in w.server.exchanges[x].ready
    requires w.journal.value.op.Single? ==> !w.journal.value.targets[0].status.FailureAckPending?
    ensures var v := Run(w, steps);
            v.client.Idle? && v.journal.Some? && v.journal.value.phase.CommittedLocally? && x < |v.server.exchanges| && v.server.exchanges[x].committed
            && v.printed == w.printed
  {
    var last := |w.journal.value.targets| - 1;
    var start := ReachTarget(w, x, last, false);
    var there := Run(w, start);
    var go := if w.journal.value.op.Single? then [Act(true, 0)] else [Act(true, 0), Act(true, 0), Act(true, 0)];
    if w.journal.value.op.Single? {
      SingleActivates(w, there, x);
    } else {
      ReconcileActivates(w, there, x);
    }
    ActivationCommits(w, Run(there, go), x);
    RunExtends(there, go, [Act(true, 0), Act(true, 0)]);
    RunExtends(w, start, go + [Act(true, 0), Act(true, 0)]);
    steps := start + (go + [Act(true, 0), Act(true, 0)]);
  }

  // ------------------------------------------------------------ such a state is reachable

  lemma Acts(w: World, before: seq<Step>, v: World) returns (after: seq<Step>)
    requires Run(w, before) == v
    ensures Run(w, after) == Apply(v, Act(true, 1))
  {
    RunStep(w, before, Act(true, 1));
    after := before + [Act(true, 1)];
  }

  function FirstKey(): PrintKey { PrintKey(false, Label(0, 0), 1) }

  function Snapshot(status: Status, attempt: Option<PrintKey>): Option<Journal> {
    Some(Journal(Reconcile(7), Some(0), [Progress(status, 1, attempt, Some(FirstKey()))], Open))
  }

  // Prepared, requested and about to print.
  lemma ReachPrinting() returns (steps: seq<Step>)
    ensures var w := Run(Initial, steps);
            && w.journal == Snapshot(PrintRequested, Some(FirstKey())) && w.printed == []
            && w.client == At(ExchangeProtocol.Printing, 0, false, {}, false)
            && w.server == Server([Exchange(Reconcile(7), 1, {}, false, Some(1))], map[FirstKey() := Requested])
  {
    RunStep(Initial, [], DoReconcile(Some(7), None, false));
    steps := [] + [DoReconcile(Some(7), None, false)];
    var w1 := Run(Initial, steps);
    steps := Acts(Initial, steps, w1);
    var w2 := Run(Initial, steps);
    assert w2.client == At(Answered(0), 0, false, {}, false);
    steps := Acts(Initial, steps, w2);
    var w3 := Run(Initial, steps);
    assert w3.journal.value.targets == [Progress(Prepared, 0, None, None)];
    steps := Acts(Initial, steps, w3);
    var w4 := Run(Initial, steps);
    assert w4.journal.value.targets == [Progress(RequestPending, 1, None, Some(FirstKey()))];
    steps := Acts(Initial, steps, w4);
    var w5 := Run(Initial, steps);
    steps := Acts(Initial, steps, w5);
    assert Run(Initial, steps).journal.value.targets == [Progress(PrintRequested, 1, Some(FirstKey()), Some(FirstKey()))];
  }

  // Printed once, its proof journaled.
  lemma ReachProven() returns (steps: seq<Step>)
    ensures var w := Run(Initial, steps);
            && w.journal == Snapshot(LocalSucceeded, Some(FirstKey())) && w.printed == [Submission(Label(0, 0), 1, false, PrintRequested, true)]
            && w.client == At(Proven, 0, false, {}, false)
            && w.server == Server([Exchange(Reconcile(7), 1, {}, false, Some(1))], map[FirstKey() := Requested])
  {
    steps := ReachPrinting();
    var w1 := Run(Initial, steps);
    steps := Acts(Initial, steps, w1);
    var w2 := Run(Initial, steps);
    assert w2.journal.value.targets == [Progress(Starting, 1, Some(FirstKey()), Some(FirstKey()))];
    steps := Acts(Initial, steps, w2);
    var w3 := Run(Initial, steps);
    steps := Acts(Initial, steps, w3);
    assert Run(Initial, steps).journal.value.targets == [Progress(LocalSucceeded, 1, Some(FirstKey()), Some(FirstKey()))];
  }

  // Reported, and the server's answer read.
  lemma ReachAnswered() returns (steps: seq<Step>)
    ensures var w := Run(Initial, steps);
            && w.journal == Snapshot(CompletePending, Some(FirstKey())) && w.printed == [Submission(Label(0, 0), 1, false, PrintRequested, true)]
            && w.client == At(CompleteAnswered, 0, false, {}, false) && |w.server.exchanges| == 1 && !w.server.exchanges[0].committed
  {
    steps := ReachProven();
    var w4 := Run(Initial, steps);
    steps := Acts(Initial, steps, w4);
    var w5 := Run(Initial, steps);
    assert w5.journal.value.targets == [Progress(CompletePending, 1, Some(FirstKey()), Some(FirstKey()))];
    steps := Acts(Initial, steps, w5);
    assert Run(Initial, steps) == CallComplete(w5);
  }

  // Completed, then stopped.
  lemma ReachCompleted() returns (steps: seq<Step>)
    ensures var w := Run(Initial, steps);
            AtRest(w, 0) && w.journal == Snapshot(Completed, Some(FirstKey())) && w.printed == [Submission(Label(0, 0), 1, false, PrintRequested, true)]
  {
    steps := ReachAnswered();
    var w6 := Run(Initial, steps);
    steps := Acts(Initial, steps, w6);
    var w7 := Run(Initial, steps);
    assert w7.journal.value.targets == [Progress(Completed, 1, Some(FirstKey()), Some(FirstKey()))];
    RunStep(Initial, steps, Crash);
    steps := steps + [Crash];
  }

  // Two unconfirmed submissions of one attempt.
  lemma UnconfirmedReprint() returns (steps: seq<Step>)
    ensures var p := Run(Initial, steps).printed;
            |p| == 2 && p[0].target == p[1].target && p[0].no == p[1].no && !p[1].confirmed && p[1].from.Completed?
    ensures !Steady(steps)
  {
    var first := ReachCompleted();
    RunKeepsStructure(first);
    var again := TakenBackPrintsAgain(Run(Initial, first), 0, 0);
    RunExtends(Initial, first, again);
    steps := first + again;
    if Steady(steps) {
      SteadyPrintsOnce(steps, 0, 1);
    }
  }

  // ------------------------------------------------------------ another workstation

  // This workstation requested the attempt and stopped; another one made the target
  // ready, and the next execution journaled it as completed.
  lemma ReachForeignCompleted() returns (steps: seq<Step>)
    ensures var w := Run(Initial, steps);
            && AtRest(w, 0) && w.journal == Snapshot(Completed, Some(FirstKey())) && w.printed == []
            && Label(0, 0) in w.foreignReady
  {
    steps := ReachPrinting();
    var w1 := Run(Initial, steps);
    RunStep(Initial, steps, Crash);
    steps := steps + [Crash];
    RunStep(Initial, steps, ForeignReady(0, 0));
    steps := steps + [ForeignReady(0, 0)];
    var w2 := Run(Initial, steps);
    assert Label(0, 0) in w2.foreignReady && w2.server.exchanges[0].ready == {0};
    RunStep(Initial, steps, DoReconcile(None, None, false));
    steps := steps + [DoReconcile(None, None, false)];
    var w3 := Run(Initial, steps);
    steps := Acts(Initial, steps, w3);
    var w4 := Run(Initial, steps);
    assert w4 == Read(w3, 0);
    steps := Acts(Initial, steps, w4);
    var w5 := Run(Initial, steps);
    assert w5.journal.value.targets == [Progress(Completed, 1, Some(FirstKey()), Some(FirstKey()))];
    RunStep(Initial, steps, Crash);
    steps := steps + [Crash];
  }

  // Once the server takes it back, it is submitted for the first time, unconfirmed,
  // from a target journaled as completed: labels others made ready are an exception.
  lemma FirstSubmissionFromCompleted() returns (steps: seq<Step>)
    ensures var w := Run(Initial, steps);
            && w.printed == [Submission(Label(0, 0), 1, false, Completed, true)]
            && !Repeated(w.printed, 0) && Label(0, 0) in w.foreignReady
  {
    var first := ReachForeignCompleted();
    RunKeepsStructure(first);
    var again := TakenBackPrintsAgain(Run(Initial, first), 0, 0);
    RunExtends(Initial, first, again);
    steps := first + again;
    FirstFromDoneIsForeign(steps, 0);
  }
}
