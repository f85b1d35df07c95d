// Who made a target ready, and what the printer said.  A target this workstation
// journals as printed was taken by its printer the last time it was submitted under
// its number; one it journals as done was also reported, unless another workstation
// had a hand in it.
module ExchangeProvenance {
  import opened Common
  import opened ExchangeProtocol
  import opened ExchangeStructure
  import opened ExchangeReadiness
  import opened ExchangePrinting

  // The label went to the printer under this number.
  ghost predicate Sent(printed: seq<Submission>, l: Label, no: nat) {
    exists i :: 0 <= i < |printed| && printed[i].target == l && printed[i].no == no
  }

  // What the printer said to the last submission of the label under this number.
  function LastOutcome(printed: seq<Submission>, l: Label, no: nat): Option<bool> {
    if printed == [] then None
    else if printed[|printed| - 1].target == l && printed[|printed| - 1].no == no then Some(printed[|printed| - 1].taken)
    else LastOutcome(printed[..|printed| - 1], l, no)
  }

  predicate LastTaken(printed: seq<Submission>, l: Label, no: nat) {
    LastOutcome(printed, l, no) == Some(true)
  }

  lemma {:induction false} OutcomeIsSent(printed: seq<Submission>, l: Label, no: nat)
    ensures LastOutcome(printed, l, no).Some? <==> Sent(printed, l, no)
  {
    if printed != [] {
      var n := |printed| - 1;
      OutcomeIsSent(printed[..n], l, no);
      if i :| 0 <= i < |printed| && printed[i].target == l && printed[i].no == no {
        assert i < n ==> printed[..n][i] == printed[i];
      }
    }
  }

  lemma OutcomeGrows(printed: seq<Submission>, s: Submission, l: Label, no: nat)
    ensures LastOutcome(printed + [s], l, no) == if s.target == l && s.no == no then Some(s.taken) else LastOutcome(printed, l, no)
  {
    assert (printed + [s])[..|printed|] == printed;
  }

  predicate Told(reports: seq<Report>, l: Label, no: nat, succeeded: bool) {
    Report(l, no, succeeded) in reports
  }

  // What is on record: the submissions, the reports, and the labels others made ready.
  datatype Record = Record(printed: seq<Submission>, reports: seq<Report>, others: set<Label>)

  function RecordOf(w: World): Record { Record(w.printed, w.reports, w.foreignReady) }

  // Taken by the printer and reported, or made ready by others.
  predicate Vouched(r: Record, x: nat, k: nat, no: nat) {
    Label(x, k) in r.others || (LastTaken(r.printed, Label(x, k), no) && Told(r.reports, Label(x, k), no, true))
  }

  predicate Local(s: Status) { s.LocalSucceeded? || s.CompletePending? }

  // What the journal says of a target is on record.
  predicate TargetTaken(r: Record, p: Progress, x: nat, k: nat) {
    && (Local(p.status) ==> LastTaken(r.printed, Label(x, k), p.no))
    && (Done(p.status) && p.no >= 1 ==> Vouched(r, x, k, p.no))
    && (p.status.PrintFailed? ==> Told(r.reports, Label(x, k), p.no, false))
  }

  ghost predicate JournalTaken(w: World) {
    w.journal.Some? && w.journal.value.exchange.Some? ==>
      forall k | 0 <= k < |w.journal.value.targets| ::
        TargetTaken(RecordOf(w), w.journal.value.targets[k], w.journal.value.exchange.value, k)
  }

  // What is ready or done was vouched for under its number.
  predicate TargetSent(r: Record, ready: set<nat>, targets: seq<Progress>, x: nat, k: nat)
    requires k < |targets|
  {
    k in ready || Done(targets[k].status) ==> Vouched(r, x, k, targets[k].no)
  }

  ghost predicate TargetsSent(r: Record, ready: set<nat>, targets: seq<Progress>, x: nat) {
    forall k | 0 <= k < |targets| :: TargetSent(r, ready, targets, x, k)
  }

  // What was seen was vouched for, and what is ready was seen.
  predicate SeenSent(r: Record, ready: set<nat>, targets: seq<Progress>, x: nat, seen: set<nat>, k: nat)
    requires k < |targets|
  {
    && (k in seen ==> Vouched(r, x, k, targets[k].no))
    && (k in ready ==> k in seen || Label(x, k) in r.others)
  }

  ghost predicate SeenFrom(r: Record, ready: set<nat>, targets: seq<Progress>, x: nat, seen: set<nat>, slot: nat) {
    forall k | slot <= k < |targets| :: SeenSent(r, ready, targets, x, seen, k)
  }

  // The slot just completed is ready and not seen yet.
  function Visible(ready: set<nat>, c: Client): set<nat>
    requires c.At?
  {
    if c.point.CompleteAnswered? then ready - {c.slot} else ready
  }

  // The journal is at work on exchange x.
  predicate WorksOn(w: World, x: nat) {
    w.journal.Some? && w.journal.value.exchange == Some(x) && w.journal.value.targets != []
  }

  ghost predicate AllOthers(r: Record, x: nat, slots: set<nat>) {
    forall k | k in slots :: Label(x, k) in r.others
  }

  // Ready targets of an open exchange nobody here works on are others' doing.
  ghost predicate OthersReady(w: World) {
    forall x | 0 <= x < |w.server.exchanges| && !w.server.exchanges[x].committed && !WorksOn(w, x) ::
      AllOthers(RecordOf(w), x, w.server.exchanges[x].ready)
  }

  ghost predicate JournalSent(w: World) {
    w.journal.Some? && w.journal.value.exchange.Some? && w.journal.value.exchange.value < |w.server.exchanges|
    && (!w.server.exchanges[w.journal.value.exchange.value].committed || InLoop(w.client)) ==>
      var x := w.journal.value.exchange.value;
      TargetsSent(RecordOf(w), w.server.exchanges[x].ready, w.journal.value.targets, x)
  }

  // The client only requests and prints what it did not see ready.
  predicate Unseen(c: Client)
    requires c.At?
  {
    c.point.Requesting? || c.point.GotAttempt? || c.point.Printing? || c.point.Submitting? ==> c.slot !in c.seen
  }

  ghost predicate PointSent(r: Record, targets: seq<Progress>, x: nat, c: Client)
    requires c.At?
  {
    && Unseen(c)
    && (c.point.Submitted? && c.slot < |targets| ==> LastTaken(r.printed, Label(x, c.slot), targets[c.slot].no))
    && (c.point.Submitting? && Done(c.point.from) && c.slot < |targets| ==> Vouched(r, x, c.slot, targets[c.slot].no))
    && (c.point.CompleteAnswered? && c.slot < |targets| ==> Told(r.reports, Label(x, c.slot), targets[c.slot].no, true))
    && (c.point.FailureAcked? && c.slot < |targets| ==> Told(r.reports, Label(x, c.slot), targets[c.slot].no, false))
  }

  // Points at which the client still goes by what it saw.
  predicate Looking(c: Client) { InLoop(c) && !c.point.Activating? && !c.point.Checking? }

  ghost predicate ClientSent(w: World) {
    && (w.client.At? && w.client.point.Answered? && !w.client.over && w.client.point.x < |w.server.exchanges| ==>
          && AllOthers(RecordOf(w), w.client.point.x, w.client.seen)
          && AllOthers(RecordOf(w), w.client.point.x, w.server.exchanges[w.client.point.x].ready))
    && (Looking(w.client) && OnExchange(w) ==>
          var x := w.journal.value.exchange.value;
          && SeenFrom(RecordOf(w), Visible(w.server.exchanges[x].ready, w.client), w.journal.value.targets, x, w.client.seen, w.client.slot)
          && PointSent(RecordOf(w), w.journal.value.targets, x, w.client))
  }

  // A submission started from a done target repeats one, or others had a hand in it.
  ghost predicate LogSent(r: Record) {
    forall j | 0 <= j < |r.printed| :: Done(r.printed[j].from) ==> Repeated(r.printed, j) || r.printed[j].target in r.others
  }

  ghost predicate SentAndTaken(printed: seq<Submission>, l: Label, no: nat) {
    exists i :: 0 <= i < |printed| && printed[i].target == l && printed[i].no == no && printed[i].taken
  }

  // What was reported printed, the printer took.
  ghost predicate ReportsTaken(r: Record) {
    forall i | 0 <= i < |r.reports| :: r.reports[i].succeeded ==> SentAndTaken(r.printed, r.reports[i].target, r.reports[i].no)
  }

  ghost predicate Provenance(w: World) {
    OthersReady(w) && JournalTaken(w) && JournalSent(w) && ClientSent(w) && LogSent(RecordOf(w)) && ReportsTaken(RecordOf(w))
  }

  // ------------------------------------------------------------ records and ready sets that move

  // Nothing is printed, and nothing is forgotten.
  predicate Extends(r: Record, t: Record) { r.printed == t.printed && r.reports <= t.reports && r.others <= t.others }

  lemma StillSent(r: Record, t: Record, x: nat, k: nat, no: nat)
    requires Extends(r, t) && Vouched(r, x, k, no)
    ensures Vouched(t, x, k, no)
  {
  }

  lemma StillTaken(r: Record, t: Record, p: Progress, x: nat, k: nat)
    requires Extends(r, t) && TargetTaken(r, p, x, k)
    ensures TargetTaken(t, p, x, k)
  {
  }

  // Ready grows only by others' labels.
  ghost predicate GrownByOthers(t: Record, x: nat, ready: set<nat>, after: set<nat>) {
    forall k | k in after :: k in ready || Label(x, k) in t.others
  }

  lemma TargetsStaySent(r: Record, t: Record, ready: set<nat>, after: set<nat>, targets: seq<Progress>, x: nat)
    requires Extends(r, t) && TargetsSent(r, ready, targets, x) && GrownByOthers(t, x, ready, after)
    ensures TargetsSent(t, after, targets, x)
  {
    forall k | 0 <= k < |targets|
      ensures TargetSent(t, after, targets, x, k)
    {
      assert TargetSent(r, ready, targets, x, k);
      if Vouched(r, x, k, targets[k].no) {
        StillSent(r, t, x, k, targets[k].no);
      }
    }
  }

  lemma SeenStaysSent(r: Record, t: Record, ready: set<nat>, after: set<nat>, targets: seq<Progress>, x: nat, seen: set<nat>, slot: nat)
    requires Extends(r, t) && SeenFrom(r, ready, targets, x, seen, slot) && GrownByOthers(t, x, ready, after)
    ensures SeenFrom(t, after, targets, x, seen, slot)
  {
    forall k | slot <= k < |targets|
      ensures SeenSent(t, after, targets, x, seen, k)
    {
      assert SeenSent(r, ready, targets, x, seen, k);
      if Vouched(r, x, k, targets[k].no) {
        StillSent(r, t, x, k, targets[k].no);
      }
    }
  }

  // ------------------------------------------------------------ the environment

  lemma EnvironmentByOthers(w: World, step: Step, x: nat)
    requires ServerOk(w.server) && x < |Environment(w, step).server.exchanges|
    ensures var v := Environment(w, step);
            if x < |w.server.exchanges| then GrownByOthers(RecordOf(v), x, w.server.exchanges[x].ready, v.server.exchanges[x].ready)
            else v.server.exchanges[x].ready == {}
  {
  }

  lemma EnvironmentOthers(w: World, step: Step)
    requires Structure(w) && Provenance(w)
    ensures OthersReady(Environment(w, step))
  {
    var v := Environment(w, step);
    ForeignGrows(w.server, step);
    forall x | 0 <= x < |v.server.exchanges| && !v.server.exchanges[x].committed && !WorksOn(v, x)
      ensures AllOthers(RecordOf(v), x, v.server.exchanges[x].ready)
    {
      EnvironmentByOthers(w, step, x);
    }
  }

  lemma EnvironmentJournal(w: World, step: Step)
    requires Structure(w) && Provenance(w)
    ensures JournalSent(Environment(w, step))
  {
    var v := Environment(w, step);
    ForeignGrows(w.server, step);
    if w.journal.Some? && w.journal.value.exchange.Some?
       && (!w.server.exchanges[w.journal.value.exchange.value].committed || InLoop(w.client)) {
      var x := w.journal.value.exchange.value;
      EnvironmentByOthers(w, step, x);
      TargetsStaySent(RecordOf(w), RecordOf(v), w.server.exchanges[x].ready, v.server.exchanges[x].ready, w.journal.value.targets, x);
    }
  }


  lemma EnvironmentClient(w: World, step: Step)
    requires Structure(w) && Provenance(w)
    ensures ClientSent(Environment(w, step))
  {
    var v := Environment(w, step);
    ForeignGrows(w.server, step);
    if w.client.At? && w.client.point.Answered? {
      EnvironmentByOthers(w, step, w.client.point.x);
    }
    if Looking(w.client) {
      var x, c := w.journal.value.exchange.value, w.client;
      EnvironmentByOthers(w, step, x);
      SeenStaysSent(RecordOf(w), RecordOf(v), Visible(w.server.exchanges[x].ready, c), Visible(v.server.exchanges[x].ready, c),
                    w.journal.value.targets, x, c.seen, c.slot);
      if c.point.Submitting? && Done(c.point.from) {
        StillSent(RecordOf(w), RecordOf(v), x, c.slot, w.journal.value.targets[c.slot].no);
      }
    }
  }

  lemma EnvironmentSent(w: World, step: Step)
    requires Structure(w) && Provenance(w)
    ensures Provenance(Environment(w, step))
  {
    EnvironmentOthers(w, step);
    ReportTargets(w, Environment(w, step));
    EnvironmentJournal(w, step);
    EnvironmentClient(w, step);
  }

  // ------------------------------------------------------------ client steps

  lemma AtSlot(w: World)
    requires Structure(w) && Provenance(w) && OnTarget(w) && Looking(w.client)
    ensures var x, k := w.journal.value.exchange.value, w.client.slot;
            var ready := w.server.exchanges[x].ready;
            && TargetTaken(RecordOf(w), Current(w), x, k)
            && TargetSent(RecordOf(w), ready, w.journal.value.targets, x, k)
            && SeenSent(RecordOf(w), Visible(ready, w.client), w.journal.value.targets, x, w.client.seen, k)
            && PointSent(RecordOf(w), w.journal.value.targets, x, w.client)
  {
  }

  // Saving one target and moving on.
  lemma SaveSent(w: World, p: Progress, phase: Phase, c: Client)
    requires Structure(w) && Provenance(w) && OnTarget(w) && Looking(w.client) && InLoop(c) && Unseen(c)
    requires !c.point.Checking? && !c.point.CompleteAnswered? && !c.point.Submitted? && !c.point.FailureAcked? && c.seen == w.client.seen
    requires var x, k := w.journal.value.exchange.value, w.client.slot;
             && (p.no == Current(w).no || (p.no > Current(w).no && k !in w.client.seen && w.client.point.Target?))
             && TargetTaken(RecordOf(w), p, x, k) && (Done(p.status) ==> Vouched(RecordOf(w), x, k, p.no))
             && (c.slot == k + 1 || (c.slot == k && (w.client.point.CompleteAnswered? ==> k in c.seen)))
             && (c.point.Submitting? ==> c.slot == k && (Done(c.point.from) ==> Vouched(RecordOf(w), x, k, p.no)))
    ensures Provenance(SaveTarget(w, p, phase, c))
  {
    var x, r, v := w.journal.value.exchange.value, RecordOf(w), SaveTarget(w, p, phase, c);
    var ready, before, after := w.server.exchanges[x].ready, w.journal.value.targets, v.journal.value.targets;
    AtSlot(w);
    forall k | 0 <= k < |after|
      ensures TargetSent(r, ready, after, x, k) && TargetTaken(r, after[k], x, k)
    {
      assert TargetSent(r, ready, before, x, k) && TargetTaken(r, before[k], x, k);
    }
    forall k | c.slot <= k < |after|
      ensures SeenSent(r, ready, after, x, c.seen, k)
    {
      assert SeenSent(r, Visible(ready, w.client), before, x, c.seen, k);
    }
  }

  lemma SeenLookSent(w: World)
    requires Structure(w) && Provenance(w) && OnTarget(w) && w.client.point.Target? && w.client.slot in w.client.seen
    ensures Provenance(LookAtTarget(w))
  {
    var p, c := Current(w), w.client;
    AtSlot(w);
    if !w.journal.value.op.Single? {
      SaveSent(w, p.(status := Completed), Open, c.(slot := c.slot + 1));
    } else if !p.status.FailureAckPending? {
      SaveSent(w, p.(status := ActivationSaved), ActivatePending, c.(point := Activating));
    }
  }

  lemma LookSent(w: World)
    requires Structure(w) && Provenance(w) && OnTarget(w) && w.client.point.Target?
    ensures Provenance(LookAtTarget(w))
  {
    var p, c := Current(w), w.client;
    CurrentOk(w);
    if c.slot in c.seen {
      SeenLookSent(w);
    } else if !p.status.FailureAckPending? && (p.attempt.None? || p.status.PrintFailed?) && !p.status.RequestPending? {
      SaveSent(w, Progress(RequestPending, p.no + 1, None, Some(KeyFor(w, p.no + 1))), Open, c.(point := Requesting));
    }
  }

  lemma StartSent(w: World, ok: bool)
    requires Structure(w) && Provenance(w) && OnTarget(w) && w.client.point.Printing?
    ensures Provenance(StartPrint(w, ok))
  {
    var p, c := Current(w), w.client;
    AtSlot(w);
    if p.status.Starting? && !c.confirm {
    } else if p.status.LocalSucceeded? || p.status.CompletePending? {
      SaveSent(w, p.(status := CompletePending), Open, c.(point := Completing));
    } else if ok {
      SaveSent(w, p.(status := Starting), Open, c.(point := Submitting(p.status)));
    }
  }

  lemma SavesSent(w: World, ok: bool)
    requires Structure(w) && Provenance(w) && OnTarget(w)
    requires w.client.point.Submitted? || w.client.point.Proven? || w.client.point.GotAttempt? || w.client.point.Raised?
    ensures Provenance(GoTarget(w, ok))
  {
    var p, c := Current(w), w.client;
    AtSlot(w);
    match c.point {
      case Submitted => SaveSent(w, p.(status := LocalSucceeded), Open, c.(point := Proven));
      case Proven => SaveSent(w, p.(status := CompletePending), Open, c.(point := Completing));
      case GotAttempt => SaveSent(w, p.(status := PrintRequested, attempt := p.key), Open, c.(point := ExchangeProtocol.Printing));
      case Raised => SaveSent(w, p.(status := FailureAckPending), Open, c.(point := FailureAcking));
    }
  }

  lemma SaveCompletedSent(w: World)
    requires Structure(w) && Readiness(w) && Provenance(w) && OnTarget(w) && w.client.point.CompleteAnswered?
    ensures Provenance(SaveCompleted(w))
  {
    var p, c := Current(w).(status := Completed), w.client;
    AtSlot(w);
    if w.journal.value.op.Single? {
      SaveSent(w, p, Open, c.(point := Target));
    } else {
      SaveSent(w, p, Open, c.(point := Target, slot := c.slot + 1));
    }
  }

  lemma StopSent(w: World)
    requires Provenance(w)
    ensures Provenance(Stop(w))
  {
  }

  lemma SaveFailedSent(w: World)
    requires Structure(w) && Provenance(w) && OnTarget(w) && w.client.point.FailureAcked?
    ensures Provenance(SaveFailed(w))
  {
    AtSlot(w);
    SaveSent(w, Current(w).(status := PrintFailed), Open, w.client.(point := Target));
    StopSent(SaveStatus(w, PrintFailed, Target));
  }

  // The log gains this submission; started from a done target it is a repeat.
  lemma LogGrows(r: Record, s: Submission)
    requires LogSent(r) && (Done(s.from) ==> s.target in r.others || Sent(r.printed, s.target, s.no))
    ensures LogSent(r.(printed := r.printed + [s]))
  {
    var log, n := r.printed + [s], |r.printed|;
    assert log[n] == s;
    forall j | 0 <= j < |log| && Done(log[j].from) && log[j].target !in r.others
      ensures Repeated(log, j)
    {
      if j < n {
        assert Repeated(r.printed, j);
        var i: nat :| i < j && Repeats(r.printed, i, j);
        assert Repeats(log, i, j);
      } else {
        var i :| 0 <= i < n && r.printed[i].target == s.target && r.printed[i].no == s.no;
        assert Repeats(log, i, j);
      }
    }
  }

  lemma ReportsStayTaken(r: Record, s: Submission)
    requires ReportsTaken(r)
    ensures ReportsTaken(r.(printed := r.printed + [s]))
  {
    forall i | 0 <= i < |r.reports| && r.reports[i].succeeded
      ensures SentAndTaken(r.printed + [s], r.reports[i].target, r.reports[i].no)
    {
      assert SentAndTaken(r.printed, r.reports[i].target, r.reports[i].no);
      var m :| 0 <= m < |r.printed| && r.printed[m].target == r.reports[i].target && r.printed[m].no == r.reports[i].no && r.printed[m].taken;
      assert (r.printed + [s])[m] == r.printed[m];
    }
  }

  // A submission of a label at work leaves the records of the others alone.
  lemma VouchedApart(r: Record, s: Submission, x: nat, k: nat, no: nat)
    ensures var t := r.(printed := r.printed + [s]);
            && (s.target != Label(x, k) ==> Vouched(t, x, k, no) == Vouched(r, x, k, no) && LastTaken(t.printed, Label(x, k), no) == LastTaken(r.printed, Label(x, k), no))
            && (Label(x, k) in r.others ==> Vouched(t, x, k, no))
  {
    OutcomeGrows(r.printed, s, Label(x, k), no);
  }

  lemma SubmitTargets(w: World, ok: bool)
    requires Structure(w) && Provenance(w) && OnTarget(w) && w.client.point.Submitting?
    ensures JournalTaken(Submit(w, ok)) && JournalSent(Submit(w, ok))
  {
    var x, v, targets := w.journal.value.exchange.value, Submit(w, ok), w.journal.value.targets;
    var r, t, ready, s := RecordOf(w), RecordOf(v), w.server.exchanges[x].ready, v.printed[|w.printed|];
    AtSlot(w);
    forall k | 0 <= k < |targets|
      ensures TargetTaken(t, targets[k], x, k) && TargetSent(t, ready, targets, x, k)
    {
      assert TargetTaken(r, targets[k], x, k) && TargetSent(r, ready, targets, x, k);
      VouchedApart(r, s, x, k, targets[k].no);
    }
  }

  lemma SubmitClient(w: World, ok: bool)
    requires Structure(w) && Provenance(w) && OnTarget(w) && w.client.point.Submitting?
    ensures ClientSent(Submit(w, ok))
  {
    var x, c, v, targets := w.journal.value.exchange.value, w.client, Submit(w, ok), w.journal.value.targets;
    var r, t, ready, s := RecordOf(w), RecordOf(v), w.server.exchanges[x].ready, v.printed[|w.printed|];
    AtSlot(w);
    forall k | c.slot <= k < |targets|
      ensures SeenSent(t, ready, targets, x, c.seen, k)
    {
      assert SeenSent(r, ready, targets, x, c.seen, k);
      VouchedApart(r, s, x, k, targets[k].no);
    }
    OutcomeGrows(r.printed, s, CurrentLabel(w), Current(w).no);
  }

  lemma SubmitSent(w: World, ok: bool)
    requires Structure(w) && Provenance(w) && OnTarget(w) && w.client.point.Submitting?
    ensures Provenance(Submit(w, ok))
  {
    var s := Submit(w, ok).printed[|w.printed|];
    AtSlot(w);
    OutcomeIsSent(w.printed, s.target, s.no);
    LogGrows(RecordOf(w), s);
    ReportsStayTaken(RecordOf(w), s);
    SubmitTargets(w, ok);
    SubmitClient(w, ok);
  }

  lemma {:induction false} OutcomeTaken(printed: seq<Submission>, l: Label, no: nat)
    requires LastTaken(printed, l, no)
    ensures SentAndTaken(printed, l, no)
  {
    var n := |printed| - 1;
    if !(printed[n].target == l && printed[n].no == no) {
      OutcomeTaken(printed[..n], l, no);
      var i :| 0 <= i < n && printed[..n][i].target == l && printed[..n][i].no == no && printed[..n][i].taken;
      assert printed[i].taken;
    }
  }

  // A report of what the printer took.
  lemma ReportsGrow(r: Record, l: Label, no: nat, succeeded: bool)
    requires ReportsTaken(r) && (succeeded ==> LastTaken(r.printed, l, no))
    ensures var t := r.(reports := r.reports + [Report(l, no, succeeded)]); Extends(r, t) && ReportsTaken(t) && Told(t.reports, l, no, succeeded)
  {
    if succeeded {
      OutcomeTaken(r.printed, l, no);
    }
  }

  // The journal, the reports and the submissions after a report.
  lemma ReportTargets(w: World, v: World)
    requires Structure(w) && Provenance(w) && v.journal == w.journal && Extends(RecordOf(w), RecordOf(v))
    ensures JournalTaken(v)
  {
    if w.journal.Some? && w.journal.value.exchange.Some? {
      var x, targets := w.journal.value.exchange.value, w.journal.value.targets;
      forall k | 0 <= k < |targets|
        ensures TargetTaken(RecordOf(v), targets[k], x, k)
      {
        StillTaken(RecordOf(w), RecordOf(v), targets[k], x, k);
      }
    }
  }

  // The journal reports a printed target: ready now, and vouched for.
  lemma CompleteTargets(w: World)
    requires Structure(w) && Provenance(w) && OnTarget(w) && w.client.point.Completing?
    ensures JournalSent(CallComplete(w))
  {
    AtSlot(w);
    CurrentOk(w);
    var x, r, v := w.journal.value.exchange.value, RecordOf(w), CallComplete(w);
    var t, ready, targets, c := RecordOf(v), w.server.exchanges[x].ready, w.journal.value.targets, w.client;
    assert v.server.exchanges[x].ready <= ready + {c.slot};
    forall k | 0 <= k < |targets|
      ensures TargetSent(t, v.server.exchanges[x].ready, targets, x, k)
    {
      assert TargetSent(r, ready, targets, x, k);
      if Vouched(r, x, k, targets[k].no) {
        StillSent(r, t, x, k, targets[k].no);
      }
    }
  }

  lemma CompleteSeen(w: World)
    requires Structure(w) && Provenance(w) && OnTarget(w) && w.client.point.Completing?
    ensures ClientSent(CallComplete(w))
  {
    AtSlot(w);
    CurrentOk(w);
    var x, r, v := w.journal.value.exchange.value, RecordOf(w), CallComplete(w);
    var t, ready, targets, c := RecordOf(v), w.server.exchanges[x].ready, w.journal.value.targets, w.client;
    if v.client.At? {
      forall k | c.slot <= k < |targets|
        ensures SeenSent(t, Visible(ready + {c.slot}, v.client), targets, x, v.client.seen, k)
      {
        assert SeenSent(r, ready, targets, x, c.seen, k) && TargetSent(r, ready, targets, x, k);
        if Vouched(r, x, k, targets[k].no) {
          StillSent(r, t, x, k, targets[k].no);
        }
      }
    }
  }

  lemma CompleteSent(w: World)
    requires Structure(w) && Provenance(w) && OnTarget(w) && w.client.point.Completing?
    ensures Provenance(CallComplete(w))
  {
    AtSlot(w);
    CurrentOk(w);
    ReportsGrow(RecordOf(w), CurrentLabel(w), Current(w).no, true);
    ReportTargets(w, CallComplete(w));
    CompleteTargets(w);
    CompleteSeen(w);
  }

  // A failure report changes no exchange.
  lemma FailedSent(w: World)
    requires Structure(w) && Provenance(w) && OnTarget(w) && w.client.point.FailureAcking?
    ensures Provenance(CallFailed(w))
  {
    var x, c, v := w.journal.value.exchange.value, w.client, CallFailed(w);
    var ready, targets := w.server.exchanges[x].ready, w.journal.value.targets;
    CurrentOk(w);
    ReportsGrow(RecordOf(w), CurrentLabel(w), Current(w).no, false);
    ReportTargets(w, v);
    TargetsStaySent(RecordOf(w), RecordOf(v), ready, ready, targets, x);
    SeenStaysSent(RecordOf(w), RecordOf(v), ready, ready, targets, x, c.seen, c.slot);
  }

  lemma RequestSent(w: World)
    requires Structure(w) && Provenance(w) && OnTarget(w) && w.client.point.Requesting?
    ensures Provenance(CallRequest(w))
  {
  }

  lemma GoTargetSent(w: World, ok: bool)
    requires Structure(w) && Readiness(w) && Provenance(w) && OnTarget(w) && Looking(w.client)
    ensures Provenance(GoTarget(w, ok))
  {
    var p := w.client.point;
    if p.Requesting? {
      RequestSent(w);
    } else if p.FailureAcking? {
      FailedSent(w);
    } else if p.Submitted? || p.Proven? || p.GotAttempt? || p.Raised? {
      SavesSent(w, ok);
    } else if p.FailureAcked? {
      SaveFailedSent(w);
    } else {
      GoPrintSent(w, ok);
    }
  }

  lemma GoPrintSent(w: World, ok: bool)
    requires Structure(w) && Readiness(w) && Provenance(w) && OnTarget(w) && PrintPoint(w.client.point)
    ensures Provenance(GoTarget(w, ok))
  {
    match w.client.point {
      case Target => LookSent(w);
      case Printing => StartSent(w, ok);
      case Submitting(_) => SubmitSent(w, ok);
      case Completing => CompleteSent(w);
      case CompleteAnswered => SaveCompletedSent(w);
    }
  }

  lemma PrepareSent(w: World, count: nat)
    requires Structure(w) && Provenance(w) && w.client.At? && w.client.point.Preparing? && w.journal.value.exchange.None?
    ensures Provenance(CallPrepare(w, count))
  {
  }

  // Fresh targets are unprinted, and done only where others made them ready.
  lemma NewTargetsSent(r: Record, op: Operation, count: nat, ready: set<nat>, seen: set<nat>, x: nat)
    requires AllOthers(r, x, ready) && AllOthers(r, x, seen)
    ensures TargetsSent(r, ready, NewTargets(op, count, seen), x)
    ensures SeenFrom(r, ready, NewTargets(op, count, seen), x, seen, 0)
  {
  }

  // A known exchange that is open: what is ready was sent.
  lemma ReadTargetsSent(r: Record, ready: set<nat>, targets: seq<Progress>, x: nat)
    requires TargetsSent(r, ready, targets, x)
    ensures SeenFrom(r, ready, targets, x, ready, 0)
  {
    forall k | 0 <= k < |targets|
      ensures SeenSent(r, ready, targets, x, ready, k)
    {
      assert TargetSent(r, ready, targets, x, k);
    }
  }

  lemma ReadSent(w: World)
    requires Structure(w) && Provenance(w) && w.client.At? && w.client.point.Preparing? && w.journal.value.exchange.Some?
    ensures Provenance(Read(w, w.journal.value.exchange.value))
  {
    var x, j := w.journal.value.exchange.value, w.journal.value;
    var e := w.server.exchanges[x];
    if !e.committed {
      if j.targets == [] {
        NewTargetsSent(RecordOf(w), j.op, e.count, e.ready, e.ready, x);
      } else {
        ReadTargetsSent(RecordOf(w), e.ready, j.targets, x);
      }
    }
  }

  lemma AnsweredSent(w: World, x: nat)
    requires Structure(w) && Provenance(w) && w.client.At? && w.client.point == Answered(x)
    ensures x < |w.server.exchanges| && Provenance(SavePrepared(w, x))
  {
    var e := w.server.exchanges[x];
    if !w.client.over {
      NewTargetsSent(RecordOf(w), w.journal.value.op, e.count, e.ready, w.client.seen, x);
    }
  }

  lemma CheckSent(w: World, ok: bool)
    requires Structure(w) && Provenance(w) && w.client.At?
    ensures w.client.point.Checking? ==> OnExchange(w) && Provenance(CheckReady(w))
    ensures w.client.point.Finish? ==> OnExchange(w) && Provenance(SaveCommitted(w, ok))
    ensures w.client.point.Target? ==> Provenance(Move(w, Checking))
  {
  }

  lemma ActivateSent(w: World, served: bool)
    requires Structure(w) && Provenance(w) && w.client.At? && w.client.point.Activating?
    ensures OnExchange(w) && Provenance(CallActivate(w, served))
  {
  }

  lemma ActSent(w: World, ok: bool, count: nat)
    requires Structure(w) && Readiness(w) && Provenance(w) && w.client.At?
    ensures Provenance(Go(w, ok, count))
  {
    if w.client.point.Preparing? {
      ActPrepareSent(w, ok, count);
    } else if w.client.point.Answered? {
      AnsweredSent(w, w.client.point.x);
    } else if w.client.point.Activating? {
      ActivateSent(w, ok);
    } else {
      ActLoopSent(w, ok, count);
    }
  }

  lemma ActPrepareSent(w: World, ok: bool, count: nat)
    requires Structure(w) && Provenance(w) && w.client.At? && w.client.point.Preparing?
    ensures Provenance(Go(w, ok, count))
  {
    if w.journal.value.exchange.None? { PrepareSent(w, count); } else { ReadSent(w); }
  }

  lemma ActLoopSent(w: World, ok: bool, count: nat)
    requires Structure(w) && Readiness(w) && Provenance(w) && w.client.At?
    requires !w.client.point.Preparing? && !w.client.point.Answered? && !w.client.point.Activating?
    ensures Provenance(Go(w, ok, count))
  {
    CheckSent(w, ok);
    if OnTarget(w) && Looking(w.client) {
      GoTargetSent(w, ok);
    }
  }

  // ------------------------------------------------------------ steps and runs

  lemma StartJournalSent(w: World, op: Operation, linked: Option<nat>, confirm: bool)
    requires Structure(w) && Provenance(w) && w.client.Idle? && !Active(w.journal)
    ensures Provenance(NewJournal(w, op, linked, confirm))
  {
  }

  lemma BeginSent(w: World, step: Step)
    requires Structure(w) && Provenance(w) && (step.DoSingle? || step.DoReconcile?)
    ensures Provenance(Apply(w, step))
  {
    if w.client.Idle? && !Active(w.journal) {
      if step.DoSingle? {
        StartJournalSent(w, Single(step.master, step.instruction, step.request), None, step.confirm);
      } else if step.context.Some? {
        StartJournalSent(w, Reconcile(step.context.value), step.linked, step.confirm);
      }
    }
  }

  lemma PhaseSent(w: World, x: nat)
    requires Structure(w) && Provenance(w)
    ensures Provenance(Stop(w)) && Provenance(Refuse(w)) && Provenance(Refreshed(w, x))
  {
  }

  lemma StepKeepsProvenance(w: World, step: Step)
    requires Structure(w) && Readiness(w) && Provenance(w)
    ensures Provenance(Apply(w, step))
  {
    if step.DoSingle? || step.DoReconcile? {
      BeginSent(w, step);
    } else if step.Act? {
      if w.client.At? {
        ActSent(w, step.ok, step.count);
      }
    } else {
      PhaseSent(w, if step.ConfirmRefresh? then step.x else 0);
      EnvironmentSent(w, step);
    }
  }

  lemma {:induction false} RunKeepsProvenance(steps: seq<Step>)
    ensures Provenance(Run(Initial, steps))
  {
    if steps != [] {
      var before := steps[..|steps| - 1];
      RunKeepsProvenance(before);
      RunKeepsReadiness(before);
      RunKeepsStructure(before);
      StepKeepsProvenance(Run(Initial, before), steps[|steps| - 1]);
    }
  }

  // ------------------------------------------------------------ results

  // In every run, a first submission started from a target journaled as done is of a
  // label another workstation made ready.
  lemma FirstFromDoneIsForeign(steps: seq<Step>, j: nat)
    requires var p := Run(Initial, steps).printed; j < |p| && Done(p[j].from) && !Repeated(p, j)
    ensures Run(Initial, steps).printed[j].target in Run(Initial, steps).foreignReady
  {
    RunKeepsProvenance(steps);
  }

  // In every run of crashes, lost answers, both workflows and whatever the server
  // does, for a label no other workstation made ready: an unconfirmed submission is a
  // repeat if and only if printing was started from a target journaled COMPLETED or
  // ACTIVATE_PENDING.
  lemma UnconfirmedRepeatExactly(steps: seq<Step>, j: nat)
    requires var w := Run(Initial, steps);
             j < |w.printed| && !w.printed[j].confirmed && w.printed[j].target !in w.foreignReady
    ensures var p := Run(Initial, steps).printed; Repeated(p, j) <==> Done(p[j].from)
  {
    if Repeated(Run(Initial, steps).printed, j) {
      RepeatStartsFromDone(steps, j);
    } else if Done(Run(Initial, steps).printed[j].from) {
      FirstFromDoneIsForeign(steps, j);
    }
  }
}
