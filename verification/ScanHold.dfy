// The durable preflight scan hold: a FIFO of scans kept in one file, which can be
// quarantined and restored whole.
module ScanHold {
  import opened Common
  import opened Ordering

  // A hold id is a hash of these, with the creation time in whole seconds.
  datatype HoldId = HoldId(worker: string, master: string, epoch: int, created: nat)

  // A scan id is a hash of its hold and its sequence number.
  datatype ScanId = ScanId(hold: HoldId, sequence: nat)

  datatype Scan = Scan(id: ScanId, sequence: nat, raw: string, admittedAt: nat)

  datatype Phase = Lookup | LookupFailed | Draining

  datatype Hold = Hold(id: HoldId, phase: Phase, items: seq<Scan>, updated: nat, error: string)

  // The active hold file, and the quarantined ones; a quarantine file name is a
  // hash of its content.
  datatype Files = Files(active: Option<Hold>, quarantined: set<Hold>)

  datatype Error = Invalid | Missing | Conflict | Full

  datatype Op =
    | Start(worker: string, master: string, epoch: int, now: nat)
    | Append(raw: string, now: nat)
    | MarkOffline(code: string, now: nat)
    | MarkFailed(code: string, now: nat)
    | Resume(master: string, worker: string, now: nat)
    | MarkDraining(now: nat)
    | AckHead(scan: ScanId, now: nat)
    | Quarantine
    | Restore(hold: Hold)

  function Fallback(code: string, default: string): string {
    Strip(if code == "" then default else code)
  }

  function NextScan(h: Hold, raw: string, now: nat): Scan {
    var sequence := if h.items == [] then 1 else h.items[|h.items| - 1].sequence + 1;
    Scan(ScanId(h.id, sequence), sequence, raw, now)
  }

  function DoStart(f: Files, worker: string, master: string, epoch: int, now: nat): Result<Files, Error> {
    var name := Strip(worker);
    if name == "" || master == "" then Err(Invalid)
    else if f.active.Some? then
      (if f.active.value.id.worker == name && f.active.value.id.master == master then Ok(f) else Err(Conflict))
    else Ok(f.(active := Some(Hold(HoldId(name, master, epoch, now), Lookup, [], now, ""))))
  }

  function DoAppend(f: Files, capacity: nat, raw: string, now: nat): Result<Files, Error> {
    if raw == "" then Err(Invalid)
    else if f.active.None? then Err(Missing)
    else if !f.active.value.phase.Lookup? then Err(Conflict)
    else if |f.active.value.items| >= capacity then Err(Full)
    else
      var h := f.active.value;
      Ok(f.(active := Some(h.(items := h.items + [NextScan(h, raw, now)], updated := now))))
  }

  function DoMark(f: Files, op: Op): Result<Files, Error>
    requires op.MarkOffline? || op.MarkFailed? || op.Resume? || op.MarkDraining?
  {
    if f.active.None? then Err(Missing)
    else
      var h := f.active.value.(updated := op.now);
      match op
      case MarkOffline(code, _) =>
        if h.phase.Lookup? then Ok(f.(active := Some(h.(error := Fallback(code, "PHS2_PREFLIGHT_UNAVAILABLE"))))) else Err(Conflict)
      case MarkFailed(code, _) =>
        Ok(f.(active := Some(h.(phase := LookupFailed, error := Fallback(code, "PHS2_PREFLIGHT_FAILED")))))
      case Resume(master, worker, _) =>
        if h.id.master == master && h.id.worker == Strip(worker)
        then Ok(f.(active := Some(h.(phase := Lookup, error := "")))) else Err(Conflict)
      case MarkDraining(_) =>
        if !h.phase.Lookup? then Err(Conflict)
        else if h.items == [] then Ok(f.(active := None))
        else Ok(f.(active := Some(h.(phase := Draining))))
  }

  function DoAck(f: Files, scan: ScanId, now: nat): Result<Files, Error> {
    if f.active.None? then Err(Missing)
    else
      var h := f.active.value;
      if !h.phase.Draining? || h.items == [] || h.items[0].id != scan then Err(Conflict)
      else if |h.items| == 1 then Ok(f.(active := None))
      else Ok(f.(active := Some(h.(items := h.items[1..], updated := now))))
  }

  function DoRestore(f: Files, hold: Hold): Result<Files, Error> {
    if hold !in f.quarantined then Err(Missing)
    else if f.active.Some? && f.active.value != hold then Err(Conflict)
    else Ok(Files(Some(hold), f.quarantined - {hold}))
  }

  function Do(f: Files, capacity: nat, op: Op): Result<Files, Error> {
    match op
    case Start(worker, master, epoch, now) => DoStart(f, worker, master, epoch, now)
    case Append(raw, now) => DoAppend(f, capacity, raw, now)
    case AckHead(scan, now) => DoAck(f, scan, now)
    case Quarantine => if f.active.None? then Err(Missing) else Ok(Files(None, f.quarantined + {f.active.value}))
    case Restore(hold) => DoRestore(f, hold)
    case _ => DoMark(f, op)
  }

  // ------------------------------------------------------------ the store

  class HoldStore {
    const capacity: nat
    var active: Option<Hold>
    var quarantined: set<Hold>

    function Snapshot(): Files
      reads this
    {
      Files(active, quarantined)
    }

    constructor (requested: int)
      ensures capacity >= 1 && (requested >= 1 ==> capacity == requested) && Snapshot() == Files(None, {})
    {
      capacity := if requested < 1 then 1 else requested;
      active, quarantined := None, {};
    }

    // Each method writes the file once, or raises and leaves it.
    method StartHold(worker: string, master: string, epoch: int, now: nat) returns (r: Result<Hold, Error>)
      modifies this
      ensures var next := Do(old(Snapshot()), capacity, Start(worker, master, epoch, now));
              if next.Ok? then Snapshot() == next.value && r == Ok(active.value) else Snapshot() == old(Snapshot()) && r == Err(next.error)
    {
      var name := Strip(worker);
      if name == "" || master == "" {
        return Err(Invalid);
      }
      if active.Some? {
        if active.value.id.worker == name && active.value.id.master == master {
          return Ok(active.value);
        }
        return Err(Conflict);
      }
      var h := Hold(HoldId(name, master, epoch, now), Lookup, [], now, "");
      active := Some(h);
      return Ok(h);
    }

    method AppendScan(raw: string, now: nat) returns (r: Result<Scan, Error>)
      modifies this
      ensures var next := Do(old(Snapshot()), capacity, Append(raw, now));
              if next.Ok?
              then Snapshot() == next.value && active.Some? && active.value.items != [] && r == Ok(active.value.items[|active.value.items| - 1])
              else Snapshot() == old(Snapshot()) && r == Err(next.error)
    {
      if raw == "" {
        return Err(Invalid);
      }
      if active.None? {
        return Err(Missing);
      }
      var h := active.value;
      if !h.phase.Lookup? {
        return Err(Conflict);
      }
      if |h.items| >= capacity {
        return Err(Full);
      }
      var scan := NextScan(h, raw, now);
      active := Some(h.(items := h.items + [scan], updated := now));
      return Ok(scan);
    }

    method Acknowledge(scan: ScanId, now: nat) returns (r: Result<Option<Hold>, Error>)
      modifies this
      ensures var next := Do(old(Snapshot()), capacity, AckHead(scan, now));
              if next.Ok? then Snapshot() == next.value && r == Ok(active) else Snapshot() == old(Snapshot()) && r == Err(next.error)
    {
      if active.None? {
        return Err(Missing);
      }
      var h := active.value;
      if !h.phase.Draining? || h.items == [] || h.items[0].id != scan {
        return Err(Conflict);
      }
      var remaining := h.items[1..];
      if remaining == [] {
        active := None;
      } else {
        active := Some(h.(items := remaining, updated := now));
      }
      return Ok(active);
    }

    method MarkHoldOffline(code: string, now: nat) returns (error: Option<Error>)
      modifies this
      ensures var next := Do(old(Snapshot()), capacity, MarkOffline(code, now));
              if next.Ok? then Snapshot() == next.value && error.None? else Snapshot() == old(Snapshot()) && error == Some(next.error)
    {
      if active.None? {
        return Some(Missing);
      }
      if !active.value.phase.Lookup? {
        return Some(Conflict);
      }
      active := Some(active.value.(updated := now, error := Fallback(code, "PHS2_PREFLIGHT_UNAVAILABLE")));
      return None;
    }

    // Unlike its siblings, accepted in every phase.
    method MarkHoldFailed(code: string, now: nat) returns (error: Option<Error>)
      modifies this
      ensures var next := Do(old(Snapshot()), capacity, MarkFailed(code, now));
              if next.Ok? then Snapshot() == next.value && error.None? else Snapshot() == old(Snapshot()) && error == Some(next.error)
    {
      if active.None? {
        return Some(Missing);
      }
      active := Some(active.value.(updated := now, phase := LookupFailed, error := Fallback(code, "PHS2_PREFLIGHT_FAILED")));
      return None;
    }

    method ResumeHold(master: string, worker: string, now: nat) returns (error: Option<Error>)
      modifies this
      ensures var next := Do(old(Snapshot()), capacity, Resume(master, worker, now));
              if next.Ok? then Snapshot() == next.value && error.None? else Snapshot() == old(Snapshot()) && error == Some(next.error)
    {
      if active.None? {
        return Some(Missing);
      }
      if active.value.id.master != master || active.value.id.worker != Strip(worker) {
        return Some(Conflict);
      }
      active := Some(active.value.(updated := now, phase := Lookup, error := ""));
      return None;
    }

    method StartDraining(now: nat) returns (error: Option<Error>)
      modifies this
      ensures var next := Do(old(Snapshot()), capacity, MarkDraining(now));
              if next.Ok? then Snapshot() == next.value && error.None? else Snapshot() == old(Snapshot()) && error == Some(next.error)
    {
      if active.None? {
        return Some(Missing);
      }
      if !active.value.phase.Lookup? {
        return Some(Conflict);
      }
      if active.value.items == [] {
        active := None;
      } else {
        active := Some(active.value.(updated := now, phase := Draining));
      }
      return None;
    }

    method QuarantineHold() returns (error: Option<Error>)
      modifies this
      ensures var next := Do(old(Snapshot()), capacity, Quarantine);
              if next.Ok? then Snapshot() == next.value && error.None? else Snapshot() == old(Snapshot()) && error == Some(next.error)
    {
      if active.None? {
        return Some(Missing);
      }
      quarantined := quarantined + {active.value};
      active := None;
      return None;
    }

    method RestoreHold(hold: Hold) returns (r: Result<Hold, Error>)
      modifies this
      ensures var next := Do(old(Snapshot()), capacity, Restore(hold));
              if next.Ok? then Snapshot() == next.value && r == Ok(hold) else Snapshot() == old(Snapshot()) && r == Err(next.error)
    {
      if hold !in quarantined {
        return Err(Missing);
      }
      if active.Some? {
        if active.value != hold {
          return Err(Conflict);
        }
      } else {
        active := Some(hold);
      }
      quarantined := quarantined - {hold};
      return Ok(hold);
    }
  }

  // ------------------------------------------------------------ runs with histories

  // Every start that makes a hold makes a new incarnation, numbered from zero; no
  // operation reads these numbers.  `active` and `stored` say which incarnation a
  // file holds, `ids` its hold id, `admitted` and `acked` its scans so far, and
  // `dropped` the incarnations whose file went as a copy of another one.
  datatype World = World(
    files: Files, active: nat, stored: map<Hold, nat>, ids: map<nat, HoldId>,
    admitted: map<nat, seq<Scan>>, acked: map<nat, seq<Scan>>, next: nat, dropped: set<nat>)

  const Empty := World(Files(None, {}), 0, map[], map[], map[], map[], 0, {})

  function Log(m: map<nat, seq<Scan>>, t: nat): seq<Scan> {
    if t in m then m[t] else []
  }

  function Started(w: World, f: Files): World {
    if w.files.active.Some? || f.active.None? then w.(files := f)
    else w.(files := f, active := w.next, next := w.next + 1, ids := w.ids[w.next := f.active.value.id],
            admitted := w.admitted[w.next := []], acked := w.acked[w.next := []])
  }

  function Appended(w: World, f: Files): World {
    if f.active.None? || f.active.value.items == [] then w.(files := f)
    else
      var items := f.active.value.items;
      w.(files := f, admitted := w.admitted[w.active := Log(w.admitted, w.active) + [items[|items| - 1]]])
  }

  function Acked(w: World, f: Files): World {
    if w.files.active.None? || w.files.active.value.items == [] then w.(files := f)
    else w.(files := f, acked := w.acked[w.active := Log(w.acked, w.active) + [w.files.active.value.items[0]]])
  }

  // A copy that holds scans goes for good.
  function Dropping(h: Hold, t: nat): set<nat> { if h.items == [] then {} else {t} }

  function Stored(w: World, f: Files): World {
    if w.files.active.None? then w.(files := f)
    else
      var h := w.files.active.value;
      if h in w.stored then w.(files := f, dropped := w.dropped + Dropping(h, w.active))
      else w.(files := f, stored := w.stored[h := w.active])
  }

  function Restored(w: World, f: Files, h: Hold): World {
    if h !in w.stored then w.(files := f)
    else if w.files.active.Some? then w.(files := f, stored := w.stored - {h}, dropped := w.dropped + Dropping(h, w.stored[h]))
    else w.(files := f, active := w.stored[h], stored := w.stored - {h})
  }

  // A refused operation changes nothing.
  function Apply(w: World, capacity: nat, op: Op): World {
    var next := Do(w.files, capacity, op);
    if next.Err? then w
    else
      match op
      case Start(_, _, _, _) => Started(w, next.value)
      case Append(_, _) => Appended(w, next.value)
      case AckHead(_, _) => Acked(w, next.value)
      case Quarantine => Stored(w, next.value)
      case Restore(h) => Restored(w, next.value, h)
      case _ => w.(files := next.value)
  }

  function Run(capacity: nat, ops: seq<Op>): World {
    if ops == [] then Empty else Apply(Run(capacity, ops[..|ops| - 1]), capacity, ops[|ops| - 1])
  }

  // ------------------------------------------------------------ invariant

  ghost predicate Numbered(id: HoldId, log: seq<Scan>) {
    forall k | 0 <= k < |log| :: log[k].sequence == k + 1 && log[k].id == ScanId(id, k + 1)
  }

  // A hold file accounts for the history of its incarnation.
  ghost predicate HoldOk(w: World, capacity: nat, h: Hold, t: nat) {
    && t < w.next && t in w.ids && w.ids[t] == h.id && t in w.admitted && t in w.acked
    && w.admitted[t] == w.acked[t] + h.items
    && |h.items| <= capacity
    && (h.items == [] ==> w.acked[t] == [])
  }

  // Incarnation t is in file h.
  predicate Holding(w: World, h: Hold, t: nat) {
    (w.files.active == Some(h) && w.active == t) || (h in w.stored && w.stored[h] == t)
  }

  ghost predicate OnDisk(w: World, t: nat) { exists h :: Holding(w, h, t) }

  ghost predicate FilesOk(w: World, capacity: nat) {
    && w.stored.Keys == w.files.quarantined
    && (w.files.active.Some? ==> HoldOk(w, capacity, w.files.active.value, w.active))
    && (forall h | h in w.stored :: HoldOk(w, capacity, h, w.stored[h]))
    && (w.files.active.Some? ==> forall h | h in w.stored :: w.stored[h] != w.active)
    && (forall g, h | g in w.stored && h in w.stored && g != h :: w.stored[g] != w.stored[h])
  }

  ghost predicate LogsOk(w: World) {
    && (forall t | t in w.ids :: t < w.next)
    && w.admitted.Keys == w.ids.Keys && w.acked.Keys == w.ids.Keys
    && (forall t | t in w.ids :: Numbered(w.ids[t], w.admitted[t]))
    && (forall t | t in w.dropped :: t in w.ids && |w.acked[t]| < |w.admitted[t]|)
  }

  // An incarnation off the disk was acknowledged to its last scan, or dropped.
  ghost predicate GoneOk(w: World) {
    && (forall t | t in w.ids :: OnDisk(w, t) || t in w.dropped || Log(w.admitted, t) == Log(w.acked, t))
    && (forall t | t in w.dropped :: !OnDisk(w, t))
  }

  ghost predicate Valid(w: World, capacity: nat) {
    FilesOk(w, capacity) && LogsOk(w) && GoneOk(w)
  }

  lemma NewOnDisk(w: World, v: World, t: nat)
    requires w.files.active.None? && v.files.active.Some? && v.stored == w.stored
    ensures OnDisk(v, t) <==> OnDisk(w, t) || t == v.active
  {
    assert Holding(v, v.files.active.value, v.active);
    if OnDisk(w, t) {
      var h :| Holding(w, h, t);
      assert Holding(v, h, t);
    }
    if OnDisk(v, t) && t != v.active {
      var h :| Holding(v, h, t);
      assert Holding(w, h, t);
    }
  }

  lemma NewHoldFiles(w: World, capacity: nat, h: Hold)
    requires Valid(w, capacity) && w.files.active.None? && h.items == []
    ensures FilesOk(Started(w, w.files.(active := Some(h))), capacity)
  {
    var v := Started(w, w.files.(active := Some(h)));
    assert w.next !in w.ids;
    forall g | g in w.stored
      ensures HoldOk(v, capacity, g, w.stored[g])
    {
      assert HoldOk(w, capacity, g, w.stored[g]);
    }
  }

  lemma NewHoldGone(w: World, capacity: nat, h: Hold)
    requires Valid(w, capacity) && w.files.active.None? && h.items == []
    ensures GoneOk(Started(w, w.files.(active := Some(h))))
  {
    var v := Started(w, w.files.(active := Some(h)));
    assert w.next !in w.ids;
    forall t ensures OnDisk(v, t) <==> OnDisk(w, t) || t == w.next { NewOnDisk(w, v, t); }
  }

  lemma NewHoldKeeps(w: World, capacity: nat, h: Hold)
    requires Valid(w, capacity) && w.files.active.None? && h.items == []
    ensures Valid(Started(w, w.files.(active := Some(h))), capacity)
  {
    NewHoldFiles(w, capacity, h);
    NewHoldGone(w, capacity, h);
  }

  lemma StartKeeps(w: World, capacity: nat, op: Op)
    requires Valid(w, capacity) && op.Start?
    ensures Valid(Apply(w, capacity, op), capacity)
  {
    var next := Do(w.files, capacity, op);
    if next.Ok? && w.files.active.None? {
      var h := next.value.active.value;
      assert next.value == w.files.(active := Some(h));
      NewHoldKeeps(w, capacity, h);
    }
  }

  lemma AppendedOk(w: World, capacity: nat, h: Hold, raw: string, now: nat)
    requires Valid(w, capacity) && w.files.active == Some(h)
    ensures var log, scan := w.admitted[w.active] + [NextScan(h, raw, now)], NextScan(h, raw, now);
            Numbered(h.id, log) && log == w.acked[w.active] + (h.items + [scan])
  {
    var log := w.admitted[w.active];
    assert Numbered(h.id, log);
    assert h.items != [] ==> log[|log| - 1] == h.items[|h.items| - 1];
  }

  // The active file was rewritten: everyone is where they were.
  lemma RewriteKeepsDisk(w: World, v: World, t: nat)
    requires w.files.active.Some? && v.files.active.Some? && v.active == w.active && v.stored == w.stored
    ensures OnDisk(v, t) <==> OnDisk(w, t)
  {
    if OnDisk(w, t) {
      var h :| Holding(w, h, t);
      assert Holding(v, h, t) || Holding(v, v.files.active.value, t);
    }
    if OnDisk(v, t) {
      var h :| Holding(v, h, t);
      assert Holding(w, h, t) || Holding(w, w.files.active.value, t);
    }
  }

  // The active file went.
  lemma RemovalKeepsDisk(w: World, v: World, t: nat)
    requires w.files.active.Some? && v.files.active.None? && v.stored == w.stored
    ensures OnDisk(v, t) ==> OnDisk(w, t)
    ensures OnDisk(w, t) && t != w.active ==> OnDisk(v, t)
  {
    if OnDisk(v, t) {
      var h :| Holding(v, h, t);
      assert Holding(w, h, t);
    }
    if OnDisk(w, t) && t != w.active {
      var h :| Holding(w, h, t);
      assert Holding(v, h, t);
    }
  }

  lemma ActiveOffDisk(w: World, capacity: nat, v: World)
    requires FilesOk(w, capacity) && w.files.active.Some? && v.files.active.None? && v.stored == w.stored
    ensures !OnDisk(v, w.active)
  {
  }

  lemma AppendKeeps(w: World, capacity: nat, op: Op)
    requires Valid(w, capacity) && op.Append?
    ensures Valid(Apply(w, capacity, op), capacity)
  {
    var v := Apply(w, capacity, op);
    if Do(w.files, capacity, op).Ok? {
      var h := w.files.active.value;
      AppendedOk(w, capacity, h, op.raw, op.now);
      assert v.admitted == w.admitted[w.active := w.admitted[w.active] + [NextScan(h, op.raw, op.now)]];
      assert Holding(w, h, w.active);
      forall t ensures OnDisk(v, t) <==> OnDisk(w, t) { RewriteKeepsDisk(w, v, t); }
    }
  }

  // The acknowledged head, moved from the held scans to the acknowledged ones.
  lemma HeadMoves(acked: seq<Scan>, items: seq<Scan>)
    requires items != []
    ensures acked + items == (acked + [items[0]]) + items[1..]
  {
  }

  lemma AckMoreKeeps(w: World, capacity: nat, h: Hold, g: Hold)
    requires Valid(w, capacity) && w.files.active == Some(h) && |h.items| >= 2 && g.id == h.id && g.items == h.items[1..]
    ensures Valid(Acked(w, w.files.(active := Some(g))), capacity)
  {
    var v := Acked(w, w.files.(active := Some(g)));
    HeadMoves(w.acked[w.active], h.items);
    assert Holding(w, h, w.active);
    forall t ensures OnDisk(v, t) <==> OnDisk(w, t) { RewriteKeepsDisk(w, v, t); }
  }

  lemma AckLastKeeps(w: World, capacity: nat, h: Hold)
    requires Valid(w, capacity) && w.files.active == Some(h) && |h.items| == 1
    ensures Valid(Acked(w, w.files.(active := None)), capacity)
  {
    var v := Acked(w, w.files.(active := None));
    assert h.items == [h.items[0]];
    assert Holding(w, h, w.active);
    forall t
      ensures (OnDisk(v, t) ==> OnDisk(w, t)) && (OnDisk(w, t) && t != w.active ==> OnDisk(v, t))
    {
      RemovalKeepsDisk(w, v, t);
    }
  }

  lemma AckKeeps(w: World, capacity: nat, op: Op)
    requires Valid(w, capacity) && op.AckHead?
    ensures Valid(Apply(w, capacity, op), capacity)
  {
    var next := Do(w.files, capacity, op);
    if next.Ok? {
      var h := w.files.active.value;
      if next.value.active.Some? {
        AckMoreKeeps(w, capacity, h, next.value.active.value);
      } else {
        AckLastKeeps(w, capacity, h);
      }
    }
  }

  lemma RewriteKeeps(w: World, capacity: nat, g: Hold)
    requires Valid(w, capacity) && w.files.active.Some? && g.id == w.files.active.value.id && g.items == w.files.active.value.items
    ensures Valid(w.(files := w.files.(active := Some(g))), capacity)
  {
    var v := w.(files := w.files.(active := Some(g)));
    forall t ensures OnDisk(v, t) <==> OnDisk(w, t) { RewriteKeepsDisk(w, v, t); }
  }

  lemma RemoveKeeps(w: World, capacity: nat, dropped: set<nat>)
    requires Valid(w, capacity) && w.files.active.Some? && dropped == Dropping(w.files.active.value, w.active)
    ensures Valid(w.(files := w.files.(active := None), dropped := w.dropped + dropped), capacity)
  {
    var v := w.(files := w.files.(active := None), dropped := w.dropped + dropped);
    assert Holding(w, w.files.active.value, w.active);
    forall t
      ensures (OnDisk(v, t) ==> OnDisk(w, t)) && (OnDisk(w, t) && t != w.active ==> OnDisk(v, t))
    {
      RemovalKeepsDisk(w, v, t);
    }
    ActiveOffDisk(w, capacity, v);
  }

  // Marking keeps the hold's scans; an empty one may go.
  lemma MarkKeeps(w: World, capacity: nat, op: Op)
    requires Valid(w, capacity) && (op.MarkOffline? || op.MarkFailed? || op.Resume? || op.MarkDraining?)
    ensures Valid(Apply(w, capacity, op), capacity)
  {
    var next := Do(w.files, capacity, op);
    if next.Ok? {
      if next.value.active.Some? {
        RewriteKeeps(w, capacity, next.value.active.value);
      } else {
        RemoveKeeps(w, capacity, {});
        assert w.dropped + {} == w.dropped;
      }
    }
  }

  lemma StoreFiles(w: World, capacity: nat, h: Hold)
    requires FilesOk(w, capacity) && w.files.active == Some(h) && h !in w.stored
    ensures FilesOk(w.(files := Files(None, w.files.quarantined + {h}), stored := w.stored[h := w.active]), capacity)
  {
    var v := w.(files := Files(None, w.files.quarantined + {h}), stored := w.stored[h := w.active]);
    forall g | g in v.stored
      ensures HoldOk(v, capacity, g, v.stored[g])
    {
      assert g != h ==> HoldOk(w, capacity, g, w.stored[g]);
    }
  }

  lemma StoreGone(w: World, h: Hold)
    requires GoneOk(w) && w.files.active == Some(h) && h !in w.stored
    ensures GoneOk(w.(files := Files(None, w.files.quarantined + {h}), stored := w.stored[h := w.active]))
  {
    var v := w.(files := Files(None, w.files.quarantined + {h}), stored := w.stored[h := w.active]);
    forall t ensures OnDisk(v, t) <==> OnDisk(w, t) { StoringKeepsDisk(w, v, t); }
  }

  lemma StoreKeeps(w: World, capacity: nat, h: Hold)
    requires Valid(w, capacity) && w.files.active == Some(h) && h !in w.stored
    ensures Valid(w.(files := Files(None, w.files.quarantined + {h}), stored := w.stored[h := w.active]), capacity)
  {
    StoreFiles(w, capacity, h);
    StoreGone(w, h);
  }

  lemma QuarantineKeeps(w: World, capacity: nat, op: Op)
    requires Valid(w, capacity) && op.Quarantine?
    ensures Valid(Apply(w, capacity, op), capacity)
  {
    if w.files.active.Some? {
      var h := w.files.active.value;
      if h in w.stored {
        assert w.files.quarantined + {h} == w.files.quarantined;
        RemoveKeeps(w, capacity, Dropping(h, w.active));
      } else {
        StoreKeeps(w, capacity, h);
      }
    }
  }

  lemma StoringKeepsDisk(w: World, v: World, t: nat)
    requires w.files.active.Some? && w.files.active.value !in w.stored
    requires v.files.active.None? && v.stored == w.stored[w.files.active.value := w.active]
    ensures OnDisk(v, t) <==> OnDisk(w, t)
  {
    if OnDisk(w, t) {
      var h :| Holding(w, h, t);
      assert Holding(v, h, t) || Holding(v, w.files.active.value, t);
    }
    if OnDisk(v, t) {
      var h :| Holding(v, h, t);
      assert Holding(w, h, t);
    }
  }

  lemma TakingKeepsDisk(w: World, v: World, h: Hold, t: nat)
    requires h in w.stored && w.files.active.None?
    requires v.files.active == Some(h) && v.active == w.stored[h] && v.stored == w.stored - {h}
    ensures OnDisk(v, t) <==> OnDisk(w, t)
  {
    if OnDisk(w, t) {
      var g :| Holding(w, g, t);
      assert Holding(v, g, t);
    }
    if OnDisk(v, t) {
      var g :| Holding(v, g, t);
      assert Holding(w, g, t);
    }
  }

  // A stored copy of the active hold goes.
  lemma CopyOffDisk(w: World, capacity: nat, v: World, h: Hold, t: nat)
    requires FilesOk(w, capacity) && w.files.active == Some(h) && h in w.stored
    requires v.files.active == w.files.active && v.active == w.active && v.stored == w.stored - {h}
    ensures OnDisk(v, t) <==> OnDisk(w, t) && t != w.stored[h]
  {
    if OnDisk(w, t) && t != w.stored[h] {
      var g :| Holding(w, g, t);
      assert Holding(v, g, t);
    }
    if OnDisk(v, t) {
      var g :| Holding(v, g, t);
      assert Holding(w, g, t);
    }
  }

  lemma RestoreCopyKeeps(w: World, capacity: nat, h: Hold)
    requires Valid(w, capacity) && h in w.stored && w.files.active == Some(h)
    ensures Valid(Restored(w, Files(Some(h), w.files.quarantined - {h}), h), capacity)
  {
    var v := Restored(w, Files(Some(h), w.files.quarantined - {h}), h);
    forall t ensures OnDisk(v, t) <==> OnDisk(w, t) && t != w.stored[h] { CopyOffDisk(w, capacity, v, h, t); }
  }

  lemma RestoreEmptyKeeps(w: World, capacity: nat, h: Hold)
    requires Valid(w, capacity) && h in w.stored && w.files.active.None?
    ensures Valid(Restored(w, Files(Some(h), w.files.quarantined - {h}), h), capacity)
  {
    var v := Restored(w, Files(Some(h), w.files.quarantined - {h}), h);
    forall t ensures OnDisk(v, t) <==> OnDisk(w, t) { TakingKeepsDisk(w, v, h, t); }
  }

  lemma RestoreKeeps(w: World, capacity: nat, op: Op)
    requires Valid(w, capacity) && op.Restore?
    ensures Valid(Apply(w, capacity, op), capacity)
  {
    if Do(w.files, capacity, op).Ok? {
      if w.files.active.Some? {
        RestoreCopyKeeps(w, capacity, op.hold);
      } else {
        RestoreEmptyKeeps(w, capacity, op.hold);
      }
    }
  }

  lemma StepKeeps(w: World, capacity: nat, op: Op)
    requires Valid(w, capacity)
    ensures Valid(Apply(w, capacity, op), capacity)
  {
    match op {
      case Start(_, _, _, _) => StartKeeps(w, capacity, op);
      case Append(_, _) => AppendKeeps(w, capacity, op);
      case AckHead(_, _) => AckKeeps(w, capacity, op);
      case Quarantine => QuarantineKeeps(w, capacity, op);
      case Restore(_) => RestoreKeeps(w, capacity, op);
      case _ => MarkKeeps(w, capacity, op);
    }
  }

  lemma {:induction false} RunValid(capacity: nat, ops: seq<Op>)
    ensures Valid(Run(capacity, ops), capacity)
  {
    if ops != [] {
      RunValid(capacity, ops[..|ops| - 1]);
      StepKeeps(Run(capacity, ops[..|ops| - 1]), capacity, ops[|ops| - 1]);
    }
  }

  // ------------------------------------------------------------ results

  // In every run, wherever a hold is kept: acknowledged scans followed by held
  // scans are the admitted scans of its incarnation, in order; held numbers are
  // contiguous and within capacity.
  lemma FifoIsConserved(capacity: nat, ops: seq<Op>, h: Hold, t: nat)
    requires Holding(Run(capacity, ops), h, t)
    ensures var w := Run(capacity, ops);
            && t in w.admitted && t in w.acked && w.acked[t] + h.items == w.admitted[t]
            && |h.items| <= capacity
            && (forall k | 0 <= k < |h.items| :: h.items[k].sequence == |w.acked[t]| + k + 1)
  {
    RunValid(capacity, ops);
    var w := Run(capacity, ops);
    forall k | 0 <= k < |h.items|
      ensures h.items[k].sequence == |w.acked[t]| + k + 1
    {
      assert w.admitted[t][|w.acked[t]| + k] == h.items[k];
    }
  }

  // Two scans share an id exactly when they have the same number in incarnations of
  // the same worker, master, epoch and second.
  lemma ScanIdsExactly(capacity: nat, ops: seq<Op>, a: nat, i: nat, b: nat, j: nat)
    requires var w := Run(capacity, ops); a in w.admitted && b in w.admitted && i < |w.admitted[a]| && j < |w.admitted[b]|
    ensures var w := Run(capacity, ops);
            a in w.ids && b in w.ids && (w.admitted[a][i].id == w.admitted[b][j].id <==> i == j && w.ids[a] == w.ids[b])
  {
    RunValid(capacity, ops);
  }

  // An operation that unlinks a file with scans because an identical copy exists.
  predicate DropsCopy(w: World, op: Op) {
    || (op.Quarantine? && w.files.active.Some? && w.files.active.value in w.files.quarantined && w.files.active.value.items != [])
    || (op.Restore? && op.hold in w.files.quarantined && w.files.active == Some(op.hold) && op.hold.items != [])
  }

  // Step n of the run does so.
  predicate DropsAt(capacity: nat, ops: seq<Op>, n: nat)
    requires n < |ops|
  {
    DropsCopy(Run(capacity, ops[..n]), ops[n])
  }

  predicate NeverDrops(capacity: nat, ops: seq<Op>) {
    forall n | 0 <= n < |ops| :: !DropsAt(capacity, ops, n)
  }

  lemma PrefixDrops(capacity: nat, ops: seq<Op>, n: nat, m: nat)
    requires m < n <= |ops|
    ensures DropsAt(capacity, ops[..n], m) == DropsAt(capacity, ops, m)
  {
    assert ops[..n][..m] == ops[..m];
  }

  lemma StepDrops(w: World, capacity: nat, op: Op)
    requires Valid(w, capacity)
    ensures w.dropped <= Apply(w, capacity, op).dropped
    ensures Apply(w, capacity, op).dropped == w.dropped <==> !DropsCopy(w, op)
  {
    if op.Quarantine? && DropsCopy(w, op) {
      var h := w.files.active.value;
      assert Holding(w, h, w.active);
      assert OnDisk(w, w.active);
    }
    if op.Restore? && DropsCopy(w, op) {
      assert Holding(w, op.hold, w.stored[op.hold]);
      assert OnDisk(w, w.stored[op.hold]);
    }
  }

  lemma NeverDropsStep(capacity: nat, ops: seq<Op>)
    requires ops != []
    ensures var n := |ops| - 1; NeverDrops(capacity, ops) <==> NeverDrops(capacity, ops[..n]) && !DropsAt(capacity, ops, n)
  {
    var n := |ops| - 1;
    forall m | 0 <= m < n
      ensures DropsAt(capacity, ops[..n], m) == DropsAt(capacity, ops, m)
    {
      PrefixDrops(capacity, ops, n, m);
    }
  }

  lemma {:induction false} DroppedExactly(capacity: nat, ops: seq<Op>)
    ensures Run(capacity, ops).dropped == {} <==> NeverDrops(capacity, ops)
  {
    if ops != [] {
      var n := |ops| - 1;
      DroppedExactly(capacity, ops[..n]);
      NeverDropsStep(capacity, ops);
      RunValid(capacity, ops[..n]);
      StepDrops(Run(capacity, ops[..n]), capacity, ops[n]);
    }
  }

  // Every incarnation off the disk was acknowledged to its last scan if and only if
  // no operation of the run unlinked a file with scans as a copy of another.
  lemma NothingLostExactly(capacity: nat, ops: seq<Op>)
    ensures var w := Run(capacity, ops);
            (forall t | t in w.ids && !OnDisk(w, t) :: t in w.acked && t in w.admitted && w.acked[t] == w.admitted[t]) <==> NeverDrops(capacity, ops)
  {
    RunValid(capacity, ops);
    DroppedExactly(capacity, ops);
  }

  predicate SameSecond(w: World, t: nat, u: nat) {
    t != u && t in w.ids && u in w.ids && w.ids[t] == w.ids[u]
  }

  // Such an operation needs two incarnations of one worker, master and epoch
  // started within one second.
  lemma DropNeedsSameSecond(capacity: nat, ops: seq<Op>, op: Op)
    requires DropsCopy(Run(capacity, ops), op)
    ensures exists t, u :: SameSecond(Run(capacity, ops), t, u)
  {
    RunValid(capacity, ops);
    var w := Run(capacity, ops);
    var h := w.files.active.value;
    var t, u := w.active, w.stored[h];
    assert SameSecond(w, t, u);
  }

  // ------------------------------------------------------------ the failing run

  lemma RunStep(capacity: nat, ops: seq<Op>, op: Op)
    ensures Run(capacity, ops + [op]) == Apply(Run(capacity, ops), capacity, op)
  {
    assert (ops + [op])[..|ops|] == ops;
  }

  // A hold started, filled with one scan and quarantined.
  function FirstHold(worker: string, master: string, epoch: int, now: nat, raw: string): Hold {
    var id := HoldId(Strip(worker), master, epoch, now);
    Hold(id, Lookup, [Scan(ScanId(id, 1), 1, raw, now)], now, "")
  }

  lemma FirstTwo(w: World, capacity: nat, worker: string, master: string, epoch: int, now: nat, raw: string)
    requires capacity >= 1 && Strip(worker) != "" && master != "" && raw != "" && w.files.active.None?
    ensures var h := FirstHold(worker, master, epoch, now, raw);
            Apply(Apply(w, capacity, Start(worker, master, epoch, now)), capacity, Append(raw, now))
            == w.(files := w.files.(active := Some(h)), active := w.next, next := w.next + 1, ids := w.ids[w.next := h.id],
                  admitted := w.admitted[w.next := h.items], acked := w.acked[w.next := []])
  {
    var h := FirstHold(worker, master, epoch, now, raw);
    var one := Apply(w, capacity, Start(worker, master, epoch, now));
    assert one.files.active == Some(h.(items := []));
    assert [] + h.items == h.items && NextScan(h.(items := []), raw, now) == h.items[0];
    var two := Apply(one, capacity, Append(raw, now));
    assert two.files.active == Some(h);
    assert two.admitted == w.admitted[w.next := []][w.next := h.items];
  }

  lemma OneRound(w: World, capacity: nat, worker: string, master: string, epoch: int, now: nat, raw: string)
    requires capacity >= 1 && Strip(worker) != "" && master != "" && raw != "" && w.files.active.None?
    ensures var h := FirstHold(worker, master, epoch, now, raw);
            var v := Apply(Apply(Apply(w, capacity, Start(worker, master, epoch, now)), capacity, Append(raw, now)), capacity, Quarantine);
            && v.files == Files(None, w.files.quarantined + {h}) && v.next == w.next + 1
            && v.ids == w.ids[w.next := h.id] && v.admitted == w.admitted[w.next := h.items] && v.acked == w.acked[w.next := []]
            && v.stored == (if h in w.stored then w.stored else w.stored[h := w.next])
            && v.dropped == (if h in w.stored then w.dropped + {w.next} else w.dropped)
  {
    FirstTwo(w, capacity, worker, master, epoch, now, raw);
  }

  lemma Joined(ops: seq<Op>, a: Op, b: Op, c: Op)
    ensures ops + [a] + [b] + [c] == ops + [a, b, c]
  {
  }

  lemma RunTwo(capacity: nat, ops: seq<Op>, a: Op, b: Op)
    ensures Run(capacity, ops + [a] + [b]) == Apply(Apply(Run(capacity, ops), capacity, a), capacity, b)
  {
    RunStep(capacity, ops, a);
    RunStep(capacity, ops + [a], b);
  }

  lemma RunThree(capacity: nat, ops: seq<Op>, a: Op, b: Op, c: Op)
    ensures Run(capacity, ops + [a, b, c]) == Apply(Apply(Apply(Run(capacity, ops), capacity, a), capacity, b), capacity, c)
  {
    RunTwo(capacity, ops, a, b);
    RunStep(capacity, ops + [a] + [b], c);
    Joined(ops, a, b, c);
  }

  function Round(worker: string, master: string, epoch: int, now: nat, raw: string): seq<Op> {
    [Start(worker, master, epoch, now), Append(raw, now), Quarantine]
  }

  lemma FirstRound(capacity: nat, worker: string, master: string, epoch: int, now: nat, raw: string)
    requires capacity >= 1 && Strip(worker) != "" && master != "" && raw != ""
    ensures var h := FirstHold(worker, master, epoch, now, raw);
            var w := Run(capacity, Round(worker, master, epoch, now, raw));
            && w.files == Files(None, {h}) && w.stored == map[h := 0] && w.dropped == {} && w.next == 1
            && w.admitted == map[0 := h.items] && w.acked == map[0 := []]
  {
    RunThree(capacity, [], Start(worker, master, epoch, now), Append(raw, now), Quarantine);
    assert [] + Round(worker, master, epoch, now, raw) == Round(worker, master, epoch, now, raw);
    OneRound(Empty, capacity, worker, master, epoch, now, raw);
  }

  // Start, scan, quarantine, twice in one second: two scans are admitted under one
  // id, none is acknowledged, and one is left.
  lemma SameSecondLosesAScan(capacity: nat, worker: string, master: string, epoch: int, now: nat, raw: string)
    requires capacity >= 1 && Strip(worker) != "" && master != "" && raw != ""
    ensures var h := FirstHold(worker, master, epoch, now, raw);
            var round := Round(worker, master, epoch, now, raw);
            var w := Run(capacity, round + round);
            && w.files == Files(None, {h}) && w.stored == map[h := 0] && w.dropped == {1}
            && w.admitted == map[0 := h.items, 1 := h.items] && w.acked == map[0 := [], 1 := []]
  {
    FirstRound(capacity, worker, master, epoch, now, raw);
    var round := Round(worker, master, epoch, now, raw);
    RunThree(capacity, round, Start(worker, master, epoch, now), Append(raw, now), Quarantine);
    OneRound(Run(capacity, round), capacity, worker, master, epoch, now, raw);
  }
}
