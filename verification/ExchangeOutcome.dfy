// What a label the printer did not take leads to: it is journaled as failed, the
// server is told so, and nothing else of the target is sent before that; and what is
// journaled or reported as printed, the printer took.
module ExchangeOutcome {
  import opened Common
  import opened ExchangeProtocol
  import opened ExchangeStructure
  import opened ExchangeReadiness
  import opened ExchangePrinting
  import opened ExchangeProvenance

  // Submission i is of this label and number.
  predicate Of(printed: seq<Submission>, i: nat, l: Label, no: nat) {
    i < |printed| && printed[i].target == l && printed[i].no == no
  }

  // Submission i is the last of this label and number, and the printer took it or not.
  ghost predicate Latest(printed: seq<Submission>, i: nat, l: Label, no: nat, taken: bool) {
    Of(printed, i, l, no) && printed[i].taken == taken && forall j | i < j < |printed| :: !Of(printed, j, l, no)
  }

  ghost predicate LatestWas(printed: seq<Submission>, l: Label, no: nat, taken: bool) {
    exists i: nat :: Latest(printed, i, l, no, taken)
  }

  lemma LatestFront(printed: seq<Submission>, l: Label, no: nat, taken: bool)
    requires printed != [] && !Of(printed, |printed| - 1, l, no)
    ensures LatestWas(printed, l, no, taken) <==> LatestWas(printed[..|printed| - 1], l, no, taken)
  {
    var front := printed[..|printed| - 1];
    assert forall i: nat | i < |front| :: Of(front, i, l, no) == Of(printed, i, l, no);
    if i: nat :| Latest(printed, i, l, no, taken) {
      assert Latest(front, i, l, no, taken);
    }
    if i: nat :| Latest(front, i, l, no, taken) {
      assert Latest(printed, i, l, no, taken);
    }
  }

  // The recorded outcome is the outcome of the latest submission.
  lemma {:induction false} OutcomeIsLatest(printed: seq<Submission>, l: Label, no: nat, taken: bool)
    ensures LastOutcome(printed, l, no) == Some(taken) <==> LatestWas(printed, l, no, taken)
  {
    if printed != [] {
      var n := |printed| - 1;
      if Of(printed, n, l, no) {
        assert Latest(printed, n, l, no, printed[n].taken);
        assert forall i: nat | Latest(printed, i, l, no, taken) :: i == n;
      } else {
        LatestFront(printed, l, no, taken);
        OutcomeIsLatest(printed[..n], l, no, taken);
      }
    }
  }

  // ------------------------------------------------------------ printed means taken

  // The journal's entry for target k of exchange x.
  predicate HasTarget(w: World, x: nat, k: nat) {
    w.journal.Some? && w.journal.value.exchange == Some(x) && k < |w.journal.value.targets|
  }

  function Entry(w: World, k: nat): Progress
    requires w.journal.Some? && k < |w.journal.value.targets|
  {
    w.journal.value.targets[k]
  }

  // In every run, in both workflows: every attempt reported as succeeded has a
  // submission of that label and number which the printer took.
  lemma ReportedWasTaken(steps: seq<Step>, i: nat)
    requires i < |Run(Initial, steps).reports| && Run(Initial, steps).reports[i].succeeded
    ensures var w := Run(Initial, steps);
            exists j :: 0 <= j < |w.printed| && w.printed[j].target == w.reports[i].target && w.printed[j].no == w.reports[i].no
                        && w.printed[j].taken
  {
    RunKeepsProvenance(steps);
    var w := Run(Initial, steps);
    assert SentAndTaken(RecordOf(w).printed, w.reports[i].target, w.reports[i].no);
  }

  // In every run: the latest submission of a target journaled as printed or as pending
  // completion was taken by the printer.  So was that of a target journaled as
  // completed under an attempt, which was also reported, unless another workstation
  // made the label ready.  The failure of a target journaled as failed was reported.
  lemma JournaledWasTaken(steps: seq<Step>, x: nat, k: nat)
    requires HasTarget(Run(Initial, steps), x, k)
    ensures var w := Run(Initial, steps);
            var p, l := Entry(w, k), Label(x, k);
            && (p.status.LocalSucceeded? || p.status.CompletePending? ==> LatestWas(w.printed, l, p.no, true))
            && ((p.status.Completed? || p.status.ActivationSaved?) && p.no >= 1 && l !in w.foreignReady ==>
                  LatestWas(w.printed, l, p.no, true) && Report(l, p.no, true) in w.reports)
            && (p.status.PrintFailed? ==> Report(l, p.no, false) in w.reports)
  {
    RunKeepsProvenance(steps);
    var w := Run(Initial, steps);
    assert TargetTaken(RecordOf(w), Entry(w, k), x, k);
    OutcomeIsLatest(w.printed, Label(x, k), Entry(w, k).no, true);
  }

  // ------------------------------------------------------------ not taken

  // The exchange is open, or the client is still at work on it.
  predicate AtWork(w: World, x: nat) {
    x < |w.server.exchanges| && (!w.server.exchanges[x].committed || InLoop(w.client))
  }

  // The printer did not take the latest submission of the target's attempt, and no
  // other workstation made the label ready.
  predicate NotTaken(w: World, x: nat, k: nat) {
    HasTarget(w, x, k) && LastOutcome(w.printed, Label(x, k), Entry(w, k).no) == Some(false) && Label(x, k) !in w.foreignReady
  }

  lemma NotTakenStatus(w: World, x: nat, k: nat)
    requires Structure(w) && ExchangePrinting.Printing(w) && Provenance(w) && NotTaken(w, x, k) && AtWork(w, x)
    ensures var s := Entry(w, k).status; s.Starting? || s.FailureAckPending? || s.PrintFailed?
    ensures !AboutToSubmitFirst(w.client, k)
  {
    var p, l := Entry(w, k), Label(x, k);
    assert TargetTaken(RecordOf(w), p, x, k) && TargetSent(RecordOf(w), w.server.exchanges[x].ready, w.journal.value.targets, x, k);
    OutcomeIsSent(w.printed, l, p.no);
    var i :| 0 <= i < |w.printed| && w.printed[i].target == l && w.printed[i].no == p.no;
    assert Remembered(w, w.printed[i]) || Retired(w, w.printed[i].target.exchange);
  }

  // In every run: a target whose latest submission the printer did not take, in an
  // exchange at work, is journaled as just starting, as failed with the report
  // pending, or as failed.
  lemma NotTakenIsJournaled(steps: seq<Step>, x: nat, k: nat)
    requires var w := Run(Initial, steps);
             HasTarget(w, x, k) && AtWork(w, x) && LatestWas(w.printed, Label(x, k), Entry(w, k).no, false) && Label(x, k) !in w.foreignReady
    ensures var s := Entry(Run(Initial, steps), k).status; s.Starting? || s.FailureAckPending? || s.PrintFailed?
  {
    RunKeepsStructure(steps);
    RunKeepsPrinting(steps);
    RunKeepsProvenance(steps);
    OutcomeIsLatest(Run(Initial, steps).printed, Label(x, k), Entry(Run(Initial, steps), k).no, false);
    NotTakenStatus(Run(Initial, steps), x, k);
  }

  // What one step appends to the three logs about a label.
  function NewRequests(w: World, v: World): seq<Request> { if |w.sent| <= |v.sent| then v.sent[|w.sent|..] else [] }

  function NewReports(w: World, v: World): seq<Report> { if |w.reports| <= |v.reports| then v.reports[|w.reports|..] else [] }

  function NewSubmissions(w: World, v: World): seq<Submission> { if |w.printed| <= |v.printed| then v.printed[|w.printed|..] else [] }

  predicate SameLogs(w: World, v: World) {
    v.sent == w.sent && v.reports == w.reports && v.printed == w.printed
  }

  // Before the failure of a target is told, nothing else of it is sent, except a print
  // the operator confirmed.
  ghost predicate OnlyFailureIsSent(w: World, v: World, l: Label, p: Progress) {
    && (forall r | r in NewRequests(w, v) :: r.target != l)
    && (forall r | r in NewReports(w, v) && r.target == l :: p.status.FailureAckPending? && r == Report(l, p.no, false))
    && (forall s | s in NewSubmissions(w, v) && s.target == l :: p.status.Starting? && s.confirmed && s.no == p.no)
  }

  lemma SameLogsSend(w: World, v: World, l: Label, p: Progress)
    requires SameLogs(w, v)
    ensures OnlyFailureIsSent(w, v, l, p)
  {
  }

  // The logs one action on a target writes.
  lemma TargetLogs(w: World, ok: bool)
    requires Structure(w) && OnTarget(w) && Looking(w.client)
    ensures var v, l, p := GoTarget(w, ok), CurrentLabel(w), Current(w);
            && (v.sent == w.sent || (p.status.RequestPending? && |v.sent| == |w.sent| + 1 && w.sent <= v.sent && v.sent[|w.sent|].target == l))
            && (v.reports == w.reports || (p.status.CompletePending? && v.reports == w.reports + [Report(l, p.no, true)])
                || (p.status.FailureAckPending? && v.reports == w.reports + [Report(l, p.no, false)]))
            && (v.printed == w.printed
                || (w.client.point.Submitting? && v.printed == w.printed + [Submission(l, p.no, w.client.confirm, w.client.point.from, ok)]))
  {
  }

  // At the printer, a target the printer did not take before was confirmed.
  lemma SubmittingIsConfirmed(w: World, x: nat)
    requires Structure(w) && ExchangePrinting.Printing(w) && Provenance(w) && OnTarget(w) && NotTaken(w, x, w.client.slot) && w.client.point.Submitting?
    ensures w.client.confirm && Current(w).status.Starting?
  {
    NotTakenStatus(w, x, w.client.slot);
    AtSlot(w);
  }

  lemma TargetSends(w: World, ok: bool, x: nat, k: nat)
    requires Structure(w) && ExchangePrinting.Printing(w) && Provenance(w) && NotTaken(w, x, k) && OnTarget(w) && Looking(w.client)
    ensures OnlyFailureIsSent(w, GoTarget(w, ok), Label(x, k), Entry(w, k))
  {
    TargetLogs(w, ok);
    if w.client.slot == k {
      NotTakenStatus(w, x, k);
      if w.client.point.Submitting? {
        SubmittingIsConfirmed(w, x);
      }
    }
  }

  // The number moves on only from a failure that was told.
  ghost predicate NumberKept(w: World, v: World, x: nat, k: nat)
    requires HasTarget(w, x, k)
  {
    HasTarget(v, x, k) ==>
      || Entry(v, k).no == Entry(w, k).no
      || (Entry(w, k).status.PrintFailed? && Report(Label(x, k), Entry(w, k).no, false) in w.reports && Entry(v, k).no == Entry(w, k).no + 1)
  }

  lemma TargetNumber(w: World, ok: bool, x: nat, k: nat)
    requires Structure(w) && ExchangePrinting.Printing(w) && Provenance(w) && NotTaken(w, x, k) && OnTarget(w) && Looking(w.client)
    ensures NumberKept(w, GoTarget(w, ok), x, k)
  {
    NotTakenStatus(w, x, k);
    assert TargetTaken(RecordOf(w), Entry(w, k), x, k);
    if w.client.slot == k {
      CurrentOk(w);
    }
  }

  // Outside the target loop nothing of a target is sent.
  lemma OtherActs(w: World, ok: bool, count: nat, x: nat, k: nat)
    requires Structure(w) && HasTarget(w, x, k) && w.client.At? && !(OnTarget(w) && Looking(w.client))
    ensures SameLogs(w, Go(w, ok, count)) && NumberKept(w, Go(w, ok, count), x, k)
  {
  }

  lemma ActSends(w: World, ok: bool, count: nat, x: nat, k: nat)
    requires Structure(w) && ExchangePrinting.Printing(w) && Provenance(w) && NotTaken(w, x, k) && w.client.At?
    ensures OnlyFailureIsSent(w, Go(w, ok, count), Label(x, k), Entry(w, k)) && NumberKept(w, Go(w, ok, count), x, k)
  {
    if OnTarget(w) && Looking(w.client) {
      assert Go(w, ok, count) == GoTarget(w, ok);
      TargetSends(w, ok, x, k);
      TargetNumber(w, ok, x, k);
    } else {
      OtherActs(w, ok, count, x, k);
      SameLogsSend(w, Go(w, ok, count), Label(x, k), Entry(w, k));
    }
  }

  lemma OtherSteps(w: World, step: Step, x: nat, k: nat)
    requires Structure(w) && HasTarget(w, x, k) && (!step.Act? || w.client.Idle?)
    ensures SameLogs(w, Apply(w, step)) && NumberKept(w, Apply(w, step), x, k)
  {
  }

  // In every run, in both workflows, for a target whose latest submission the printer
  // did not take: no step requests or reports anything of it but the failure, once it
  // is journaled; nor submits it again, unless the operator confirmed a target found
  // at its start; and it gets a new attempt number only once its failure was told.
  lemma NotTakenFailsFirst(steps: seq<Step>, step: Step, x: nat, k: nat)
    requires var w := Run(Initial, steps);
             HasTarget(w, x, k) && LatestWas(w.printed, Label(x, k), Entry(w, k).no, false) && Label(x, k) !in w.foreignReady
    ensures var w, v := Run(Initial, steps), Run(Initial, steps + [step]);
            OnlyFailureIsSent(w, v, Label(x, k), Entry(w, k)) && NumberKept(w, v, x, k)
  {
    var w := Run(Initial, steps);
    RunKeepsStructure(steps);
    RunKeepsPrinting(steps);
    RunKeepsProvenance(steps);
    OutcomeIsLatest(w.printed, Label(x, k), Entry(w, k).no, false);
    assert (steps + [step])[..|steps|] == steps;
    if step.Act? && w.client.At? {
      ActSends(w, step.ok, step.count, x, k);
    } else {
      OtherSteps(w, step, x, k);
      SameLogsSend(w, Apply(w, step), Label(x, k), Entry(w, k));
    }
  }
}
