// The journaled prepare / print / complete / activate protocol of the two label
// workflows.  They share one journal file, one execution lock and one printer.
// Every journal save, server call and printer submission is a step of its own;
// a crash, a lost answer or an exception can fall between any two of them.
module ExchangeProtocol {
  import opened Common

  // A label the server issued for a target of an exchange; the labels of
  // different exchanges differ.
  datatype Label = Label(exchange: nat, slot: nat)

  // What a prepare idempotency key is a stable hash of.  `request` stands for
  // the scope, source versions and entity versions (Single), or the scope,
  // reconciliation, version and action ids (Reconcile).
  datatype Operation =
    | Single(master: string, instruction: string, request: nat)
    | Reconcile(request: nat)

  // The stable hash of workflow, exchange, label and attempt number.
  datatype PrintKey = PrintKey(single: bool, target: Label, no: nat)

  // ------------------------------------------------------------ server

  datatype AttemptState = Requested | Succeeded | Failed

  // `epoch` names the journal operation that created it; None is another workstation.
  datatype Exchange = Exchange(key: Operation, count: nat, ready: set<nat>, committed: bool, epoch: Option<nat>)

  datatype Server = Server(exchanges: seq<Exchange>, attempts: map<PrintKey, AttemptState>)

  predicate AllReady(e: Exchange) {
    forall k | 0 <= k < e.count :: k in e.ready
  }

  function Find(es: seq<Exchange>, op: Operation): (r: Option<nat>)
    ensures r.Some? ==> r.value < |es| && es[r.value].key == op
    ensures r.None? ==> forall i | 0 <= i < |es| :: es[i].key != op
  {
    if es == [] then None
    else if es[|es| - 1].key == op then Some(|es| - 1)
    else Find(es[..|es| - 1], op)
  }

  // A single exchange has one target.
  function NewExchange(op: Operation, count: nat, epoch: Option<nat>): Exchange {
    Exchange(op, if op.Single? || count == 0 then 1 else count, {}, false, epoch)
  }

  function SetExchange(s: Server, x: nat, e: Exchange): Server
    requires x < |s.exchanges|
  {
    s.(exchanges := s.exchanges[x := e])
  }

  // ------------------------------------------------------------ journal

  datatype Status =
    | Prepared | RequestPending | PrintRequested | Starting | LocalSucceeded | CompletePending
    | Completed | FailureAckPending | PrintFailed | ActivationSaved

  datatype Progress = Progress(status: Status, no: nat, attempt: Option<PrintKey>, key: Option<PrintKey>)

  datatype Phase = Open | ActivatePending | CommittedLocally | RefreshPending | Cancelled

  // `targets` is empty until the exchange has been read; then one per slot.
  datatype Journal = Journal(op: Operation, exchange: Option<nat>, targets: seq<Progress>, phase: Phase)

  predicate Active(j: Option<Journal>) {
    j.Some? && !j.value.phase.CommittedLocally? && !j.value.phase.Cancelled?
  }

  // The tray QR the single workflow compares; a reconciliation journal has none.
  function Anchor(op: Operation): string {
    if op.Single? then op.master else ""
  }

  function Instruction(op: Operation): string {
    if op.Single? then op.instruction else ""
  }

  // ------------------------------------------------------------ client

  datatype Point =
    | Preparing             // journal loaded; next: prepare, or read the known exchange
    | Answered(x: nat)      // prepare answered; next: save it
    | Target                // next: look at the target in `slot`
    | Requesting            // next: request a print attempt
    | GotAttempt            // next: save the attempt
    | Printing              // next: render and journal the start, or skip
    | Submitting(from: Status) // next: submit to the printer; the status it started from
    | Submitted             // next: save the local success
    | Proven                // next: save the pending completion
    | Completing            // next: report success
    | CompleteAnswered      // next: save the completion
    | Raised                // next: save the failure
    | FailureAcking         // next: report failure
    | FailureAcked          // next: save the acknowledged failure
    | Checking              // next: read the exchange before activating
    | Activating            // next: activate
    | Finish                // next: save the commit

  // `seen` and `over` are what the last read said: ready slots, committed.
  datatype Client = Idle | At(point: Point, slot: nat, confirm: bool, seen: set<nat>, over: bool)

  // `from` is the journaled status the printing started from; `taken` says whether
  // the printer took the image or raised.
  datatype Submission = Submission(target: Label, no: nat, confirmed: bool, from: Status, taken: bool)

  // What the server was told about an attempt.
  datatype Report = Report(target: Label, no: nat, succeeded: bool)

  // An activate, with the targets that were not ready when it was sent and those
  // the server had taken back since the client's last read.
  datatype Activation = Activation(missing: set<nat>, withdrawn: set<nat>)

  datatype Request = Request(target: Label, no: nat, key: PrintKey)

  // `takenBack` are the labels the server ever took back after they were ready,
  // `withdrawn` those of them taken back since the client's last read of an
  // exchange and not ready again; `foreignReady` are the labels another
  // workstation ever made ready.
  datatype World = World(
    journal: Option<Journal>, epoch: nat, client: Client, server: Server,
    printed: seq<Submission>, sent: seq<Request>, reports: seq<Report>, activations: seq<Activation>,
    takenBack: set<Label>, withdrawn: set<Label>, foreignReady: set<Label>)

  const Initial := World(None, 0, Idle, Server([], map[]), [], [], [], [], {}, {}, {})

  // ------------------------------------------------------------ starting

  function NewJournal(w: World, op: Operation, linked: Option<nat>, confirm: bool): World {
    w.(journal := Some(Journal(op, linked, [], Open)), epoch := w.epoch + 1,
       client := At(Preparing, 0, confirm, {}, false))
  }

  function Resume(w: World, confirm: bool): World {
    w.(client := At(Preparing, 0, confirm, {}, false))
  }

  // `instruction` is empty when the caller only recovers.  An empty master equals
  // the anchor of a reconciliation journal, but that journal has no source
  // versions, so the call stops before it saves anything.
  function StartSingle(w: World, master: string, instruction: string, request: nat, confirm: bool): World {
    if !w.client.Idle? then w
    else if Active(w.journal) then
      var op := w.journal.value.op;
      if Anchor(op) != master || (instruction != "" && instruction != Instruction(op)) || op.Reconcile? then w
      else Resume(w, confirm)
    else if instruction == "" then w
    else NewJournal(w, Single(master, instruction, request), None, confirm)
  }

  function StartReconcile(w: World, request: Option<nat>, linked: Option<nat>, confirm: bool): World {
    if !w.client.Idle? then w
    else if Active(w.journal) then
      var op := w.journal.value.op;
      if op.Single? || (request.Some? && op != Reconcile(request.value)) then w else Resume(w, confirm)
    else if request.None? || (linked.Some? && linked.value >= |w.server.exchanges|) then w
    else NewJournal(w, Reconcile(request.value), linked, confirm)
  }

  // ------------------------------------------------------------ one client action

  function NewTargets(op: Operation, count: nat, ready: set<nat>): (r: seq<Progress>)
    ensures |r| == count
    ensures forall k | 0 <= k < count ::
              r[k] == Progress(if op.Reconcile? && k in ready then Completed else Prepared, 0, None, None)
  {
    seq(count, k => Progress(if op.Reconcile? && k in ready then Completed else Prepared, 0, None, None))
  }

  function Move(w: World, point: Point): World
    requires w.client.At?
  {
    w.(client := w.client.(point := point))
  }

  function Stop(w: World): World { w.(client := Idle) }

  // Call prepare; the server answers a known key with the exchange it made.
  function CallPrepare(w: World, count: nat): World
    requires w.client.At? && w.journal.Some?
  {
    var op, es := w.journal.value.op, w.server.exchanges;
    var found := Find(es, op);
    if found.Some? then
      var e := es[found.value];
      w.(client := w.client.(point := Answered(found.value), seen := e.ready, over := e.committed), withdrawn := {})
    else
      w.(withdrawn := {}, server := w.server.(exchanges := es + [NewExchange(op, count, Some(w.epoch))]),
         client := w.client.(point := Answered(|es|), seen := {}, over := false))
  }

  function SavePrepared(w: World, x: nat): World
    requires w.client.At? && w.journal.Some? && x < |w.server.exchanges|
  {
    var j := w.journal.value;
    w.(journal := Some(j.(exchange := Some(x), phase := Open,
                          targets := NewTargets(j.op, w.server.exchanges[x].count, w.client.seen))),
       client := w.client.(point := if w.client.over then Finish else Target, slot := 0))
  }

  // Read a known exchange, and fill in the targets of a linked one.
  function Read(w: World, x: nat): World
    requires w.client.At? && w.journal.Some? && x < |w.server.exchanges|
  {
    var j, e := w.journal.value, w.server.exchanges[x];
    w.(journal := Some(if j.targets == [] then j.(targets := NewTargets(j.op, e.count, e.ready), phase := Open) else j),
       client := w.client.(point := if e.committed then Finish else Target, slot := 0, seen := e.ready, over := e.committed),
       withdrawn := {})
  }

  predicate OnTarget(w: World) {
    && w.client.At? && w.journal.Some? && w.journal.value.exchange.Some?
    && w.journal.value.exchange.value < |w.server.exchanges| && w.client.slot < |w.journal.value.targets|
  }

  function CurrentLabel(w: World): Label
    requires OnTarget(w)
  {
    Label(w.journal.value.exchange.value, w.client.slot)
  }

  function Current(w: World): Progress
    requires OnTarget(w)
  {
    w.journal.value.targets[w.client.slot]
  }

  function KeyFor(w: World, no: nat): PrintKey
    requires OnTarget(w)
  {
    PrintKey(w.journal.value.op.Single?, CurrentLabel(w), no)
  }

  // Journal one target's progress and move on.
  function SaveTarget(w: World, p: Progress, phase: Phase, c: Client): World
    requires OnTarget(w)
  {
    var j := w.journal.value;
    w.(journal := Some(j.(targets := j.targets[w.client.slot := p], phase := phase)), client := c)
  }

  function SaveStatus(w: World, status: Status, point: Point): World
    requires OnTarget(w)
  {
    SaveTarget(w, Current(w).(status := status), Open, w.client.(point := point))
  }

  function LookAtTarget(w: World): World
    requires OnTarget(w)
  {
    var p, single := Current(w), w.journal.value.op.Single?;
    if p.status.FailureAckPending? && (single || w.client.slot !in w.client.seen) then Move(w, FailureAcking)
    else if w.client.slot in w.client.seen then
      if single then SaveTarget(w, p.(status := ActivationSaved), ActivatePending, w.client.(point := Activating))
      else SaveTarget(w, p.(status := Completed), Open, w.client.(slot := w.client.slot + 1))
    else if p.attempt.None? || p.status.PrintFailed? then
      if p.status.RequestPending? && (single ==> p.key.Some?) then
        if single || p.key == Some(KeyFor(w, p.no)) then Move(w, Requesting) else Stop(w)
      else SaveTarget(w, Progress(RequestPending, p.no + 1, None, Some(KeyFor(w, p.no + 1))), Open,
                      w.client.(point := Requesting))
    else if single || p.key == Some(KeyFor(w, p.no)) then Move(w, Printing)
    else Stop(w)
  }

  // A replayed key answers with its attempt; only a REQUESTED one is taken.
  function CallRequest(w: World): World
    requires OnTarget(w)
  {
    var p := Current(w);
    if p.key.None? then Stop(w)
    else
      var key := p.key.value;
      var logged := w.(sent := w.sent + [Request(CurrentLabel(w), p.no, key)]);
      if key in w.server.attempts && !w.server.attempts[key].Requested? then Stop(logged)
      else logged.(server := w.server.(attempts := w.server.attempts[key := Requested]),
                   client := w.client.(point := GotAttempt))
  }

  function SaveRequested(w: World): World
    requires OnTarget(w)
  {
    var p := Current(w);
    SaveTarget(w, p.(status := PrintRequested, attempt := p.key), Open, w.client.(point := Printing))
  }

  function StartPrint(w: World, rendered: bool): World
    requires OnTarget(w)
  {
    var p := Current(w);
    if p.status.Starting? && !w.client.confirm then Stop(w)
    else if p.status.LocalSucceeded? || p.status.CompletePending? then SaveStatus(w, CompletePending, Completing)
    else if !rendered then Move(w, Raised)
    else SaveStatus(w, Starting, Submitting(p.status))
  }

  function Submit(w: World, ok: bool): World
    requires OnTarget(w) && w.client.point.Submitting?
  {
    w.(printed := w.printed + [Submission(CurrentLabel(w), Current(w).no, w.client.confirm, w.client.point.from, ok)],
       client := w.client.(point := if ok then Submitted else Raised))
  }

  function Reported(w: World, succeeded: bool): World
    requires OnTarget(w)
  {
    w.(reports := w.reports + [Report(CurrentLabel(w), Current(w).no, succeeded)])
  }

  // Report the attempt succeeded; the single workflow also reads the exchange in
  // the answer and wants READY.
  function CallComplete(w: World): World
    requires OnTarget(w)
  {
    var p, x, told := Current(w), w.journal.value.exchange.value, Reported(w, true);
    if p.attempt.None? then Stop(w)
    else if p.attempt.value !in w.server.attempts || w.server.attempts[p.attempt.value].Failed? then Stop(told)
    else
      var e := w.server.exchanges[x].(ready := w.server.exchanges[x].ready + {w.client.slot});
      var s := SetExchange(w.server, x, e).(attempts := w.server.attempts[p.attempt.value := Succeeded]);
      var v := told.(server := s, withdrawn := if w.journal.value.op.Single? then {} else w.withdrawn - {CurrentLabel(w)});
      if w.journal.value.op.Single? && (e.committed || !AllReady(e)) then Stop(v)
      else v.(client := w.client.(point := CompleteAnswered, seen := if w.journal.value.op.Single? then e.ready else w.client.seen))
  }

  // The single workflow goes on with the READY it read in the answer.
  function SaveCompleted(w: World): World
    requires OnTarget(w)
  {
    var p := Current(w).(status := Completed);
    if w.journal.value.op.Single?
    then SaveTarget(w, p, Open, w.client.(point := Target))
    else SaveTarget(w, p, Open, w.client.(point := Target, slot := w.client.slot + 1))
  }

  function CallFailed(w: World): World
    requires OnTarget(w)
  {
    var p, told := Current(w), Reported(w, false);
    if p.attempt.None? then Stop(w)
    else if p.attempt.value !in w.server.attempts || w.server.attempts[p.attempt.value].Succeeded? then Stop(told)
    else told.(server := w.server.(attempts := w.server.attempts[p.attempt.value := Failed]),
               client := w.client.(point := FailureAcked))
  }

  function SaveFailed(w: World): World
    requires OnTarget(w)
  {
    Stop(SaveStatus(w, PrintFailed, FailureAcked))
  }

  predicate OnExchange(w: World) {
    w.client.At? && w.journal.Some? && w.journal.value.exchange.Some? && w.journal.value.exchange.value < |w.server.exchanges|
  }

  function CheckReady(w: World): World
    requires OnExchange(w)
  {
    var j, e := w.journal.value, w.server.exchanges[w.journal.value.exchange.value];
    if e.committed || !AllReady(e) then Stop(w.(withdrawn := {}))
    else w.(journal := Some(j.(phase := ActivatePending)), client := w.client.(point := Activating), withdrawn := {})
  }

  function Missing(e: Exchange): set<nat> {
    set k | 0 <= k < e.count && k !in e.ready
  }

  function Withdrawn(labels: set<Label>, x: nat, count: nat): set<nat> {
    set k | 0 <= k < count && Label(x, k) in labels
  }

  // The server commits when every target is ready; a failed call is followed by
  // a read, so the client goes on exactly when the exchange is committed.
  function CallActivate(w: World, served: bool): World
    requires OnExchange(w)
  {
    var x := w.journal.value.exchange.value;
    var e := w.server.exchanges[x];
    var after := e.(committed := e.committed || (served && AllReady(e)));
    var sent := w.(activations := w.activations + [Activation(Missing(e), Withdrawn(w.withdrawn, x, e.count))], server := SetExchange(w.server, x, after));
    if after.committed then Move(sent, Finish) else Stop(sent)
  }

  // The single workflow may leave the local tray refresh pending.
  function SaveCommitted(w: World, refreshed: bool): World
    requires OnExchange(w)
  {
    var j := w.journal.value;
    w.(journal := Some(j.(phase := if j.op.Single? && !refreshed then RefreshPending else CommittedLocally)), client := Idle)
  }

  // One client action.  `ok` picks the good outcome of a local call.
  function Go(w: World, ok: bool, count: nat): World {
    if w.client.Idle? || w.journal.None? then w
    else
      match w.client.point
      case Preparing =>
        if w.journal.value.exchange.None? then CallPrepare(w, count)
        else if OnExchange(w) then Read(w, w.journal.value.exchange.value) else w
      case Answered(x) => if x < |w.server.exchanges| then SavePrepared(w, x) else w
      case Checking => if OnExchange(w) then CheckReady(w) else w
      case Activating => if OnExchange(w) then CallActivate(w, ok) else w
      case Finish => if OnExchange(w) then SaveCommitted(w, ok) else w
      case _ =>
        if w.client.point.Target? && w.client.slot == |w.journal.value.targets| then Move(w, Checking)
        else if OnTarget(w) then GoTarget(w, ok) else w
  }

  function GoTarget(w: World, ok: bool): World
    requires OnTarget(w)
  {
    match w.client.point
    case Target => LookAtTarget(w)
    case Requesting => CallRequest(w)
    case GotAttempt => SaveRequested(w)
    case Printing => StartPrint(w, ok)
    case Submitting(_) => Submit(w, ok)
    case Submitted => SaveStatus(w, LocalSucceeded, Proven)
    case Proven => SaveStatus(w, CompletePending, Completing)
    case Completing => CallComplete(w)
    case CompleteAnswered => SaveCompleted(w)
    case Raised => SaveStatus(w, FailureAckPending, FailureAcking)
    case FailureAcking => CallFailed(w)
    case FailureAcked => SaveFailed(w)
    case _ => w
  }

  // ------------------------------------------------------------ steps

  datatype Step =
    | DoSingle(master: string, instruction: string, request: nat, confirm: bool)
    | DoReconcile(context: Option<nat>, linked: Option<nat>, confirm: bool)
    | Act(ok: bool, count: nat)
    | Crash                             // also any exception that saves nothing
    | RefusePrepare                     // prepare answered "not committed"
    | ConfirmRefresh(x: nat)
    | ForeignPrepare(op: Operation, size: nat)
    | ForeignReady(x: nat, slot: nat)
    | ForeignCommit(x: nat)
    | ForeignAttempt(key: PrintKey, state: AttemptState)
    | Unready(x: nat, slot: nat)        // the server takes a ready target back

  // A server that answers truthfully refuses a prepare key only when it has no
  // exchange for it.
  function Refuse(w: World): World {
    if w.client.At? && w.client.point.Preparing? && w.journal.Some? && w.journal.value.exchange.None?
       && Find(w.server.exchanges, w.journal.value.op).None?
    then w.(journal := Some(w.journal.value.(phase := Cancelled)), client := Idle) else w
  }

  function Refreshed(w: World, x: nat): World {
    if w.client.Idle? && w.journal.Some? && w.journal.value.phase.RefreshPending? && w.journal.value.exchange == Some(x)
    then w.(journal := Some(w.journal.value.(phase := CommittedLocally))) else w
  }

  function Foreign(s: Server, step: Step): Server {
    match step
    case ForeignPrepare(op, size) =>
      if Find(s.exchanges, op).Some? then s else s.(exchanges := s.exchanges + [NewExchange(op, size, None)])
    case ForeignReady(x, slot) =>
      if x < |s.exchanges| then SetExchange(s, x, s.exchanges[x].(ready := s.exchanges[x].ready + {slot})) else s
    case ForeignCommit(x) =>
      if x < |s.exchanges| && AllReady(s.exchanges[x]) then SetExchange(s, x, s.exchanges[x].(committed := true)) else s
    case ForeignAttempt(key, state) => s.(attempts := s.attempts[key := state])
    case Unready(x, slot) =>
      if x < |s.exchanges| then SetExchange(s, x, s.exchanges[x].(ready := s.exchanges[x].ready - {slot})) else s
    case _ => s
  }

  // The server on its own, and what it took back.
  function Environment(w: World, step: Step): World {
    var v := w.(server := Foreign(w.server, step));
    match step
    case ForeignReady(x, slot) => v.(withdrawn := w.withdrawn - {Label(x, slot)}, foreignReady := w.foreignReady + {Label(x, slot)})
    case Unready(x, slot) =>
      if x < |w.server.exchanges| && slot in w.server.exchanges[x].ready
      then v.(withdrawn := w.withdrawn + {Label(x, slot)}, takenBack := w.takenBack + {Label(x, slot)}) else v
    case _ => v
  }

  function Apply(w: World, step: Step): World {
    match step
    case DoSingle(master, instruction, request, confirm) => StartSingle(w, master, instruction, request, confirm)
    case DoReconcile(context, linked, confirm) => StartReconcile(w, context, linked, confirm)
    case Act(ok, count) => Go(w, ok, count)
    case Crash => Stop(w)
    case RefusePrepare => Refuse(w)
    case ConfirmRefresh(x) => Refreshed(w, x)
    case _ => Environment(w, step)
  }

  function Run(w: World, steps: seq<Step>): World {
    if steps == [] then w else Apply(Run(w, steps[..|steps| - 1]), steps[|steps| - 1])
  }

  // The server keeps a ready target ready.
  predicate Steady(steps: seq<Step>) {
    forall i | 0 <= i < |steps| :: !steps[i].Unready?
  }
}
