// The two-file handoff of a draining hold and its current tray: a record of both
// originals, an archive of each, and a release once both have moved.
module PairedHandoff {
  import opened Common

  type Bytes = seq<nat>

  // The folder name hashes both paths and both contents; the paths are fixed.
  datatype PairId = PairId(hold: Bytes, current: Bytes)

  // What the folder holds besides its record: archives and markers.
  datatype Pair = Pair(hold: Option<Bytes>, current: Option<Bytes>, released: bool, superseded: bool)

  datatype State = State(hold: Option<Bytes>, current: Option<Bytes>, pairs: map<PairId, Pair>)

  datatype Part = HoldPart | CurrentPart

  datatype Error = AlreadyPending | Unreadable | NoRecord | OwnershipConflict | Differs | ActiveRemains

  predicate Pending(p: Pair) { !p.released && !p.superseded }

  predicate AnyPending(s: State) { exists id :: id in s.pairs && Pending(s.pairs[id]) }

  function Slot(s: State, part: Part): Option<Bytes> { if part.HoldPart? then s.hold else s.current }

  function Archive(p: Pair, part: Part): Option<Bytes> { if part.HoldPart? then p.hold else p.current }

  function Recorded(id: PairId, part: Part): Bytes { if part.HoldPart? then id.hold else id.current }

  // ------------------------------------------------------------ operations

  function Prepare(s: State): Result<State, Error> {
    if AnyPending(s) then Err(AlreadyPending)
    else if s.hold.None? || s.current.None? then Err(Unreadable)
    else
      var id := PairId(s.hold.value, s.current.value);
      if id in s.pairs then Ok(s) else Ok(s.(pairs := s.pairs[id := Pair(None, None, false, false)]))
  }

  // The replacing rename, whatever the source holds by then; nothing when the
  // source is gone.
  function Renamed(s: State, id: PairId, part: Part): State
    requires id in s.pairs
  {
    if Slot(s, part).None? then s
    else if part.HoldPart? then s.(hold := None, pairs := s.pairs[id := s.pairs[id].(hold := s.hold)])
    else s.(current := None, pairs := s.pairs[id := s.pairs[id].(current := s.current)])
  }

  datatype MoveCheck = MoveDone | MoveGoes | MoveRefused(error: Error)

  function CheckMove(s: State, id: PairId, part: Part): MoveCheck {
    if id !in s.pairs then MoveRefused(NoRecord)
    else
      var archive, slot := Archive(s.pairs[id], part), Slot(s, part);
      if archive.Some? then (if archive.value != Recorded(id, part) || slot.Some? then MoveRefused(OwnershipConflict) else MoveDone)
      else if slot != Some(Recorded(id, part)) then MoveRefused(Differs)
      else MoveGoes
  }

  function Release(s: State, id: PairId): Result<State, Error> {
    if id !in s.pairs then Err(NoRecord)
    else if s.hold.Some? then Err(ActiveRemains)
    else if s.pairs[id].hold != Some(id.hold) then Err(Differs)
    else if s.current.Some? then Err(ActiveRemains)
    else if s.pairs[id].current != Some(id.current) then Err(Differs)
    else Ok(s.(pairs := s.pairs[id := s.pairs[id].(released := true)]))
  }

  function Supersede(s: State, id: PairId): Result<State, Error> {
    if id !in s.pairs then Err(NoRecord) else Ok(s.(pairs := s.pairs[id := s.pairs[id].(superseded := true)]))
  }

  class HandoffStore {
    var hold: Option<Bytes>
    var current: Option<Bytes>
    var pairs: map<PairId, Pair>

    function Snapshot(): State
      reads this
    {
      State(hold, current, pairs)
    }

    constructor (h: Option<Bytes>, c: Option<Bytes>)
      ensures Snapshot() == State(h, c, map[])
    {
      hold, current, pairs := h, c, map[];
    }

    method PrepareHandoff() returns (r: Result<PairId, Error>)
      modifies this
      ensures var next := Prepare(old(Snapshot()));
              if next.Ok? then Snapshot() == next.value && hold.Some? && current.Some? && r == Ok(PairId(hold.value, current.value)) && r.value in pairs
              else Snapshot() == old(Snapshot()) && r == Err(next.error)
    {
      if AnyPending(Snapshot()) {
        return Err(AlreadyPending);
      }
      if hold.None? || current.None? {
        return Err(Unreadable);
      }
      var id := PairId(hold.value, current.value);
      if id !in pairs {
        pairs := pairs[id := Pair(None, None, false, false)];
      }
      return Ok(id);
    }

    // The unpinned move, with no writer in between.
    method MoveOriginal(id: PairId, part: Part) returns (error: Option<Error>)
      modifies this
      ensures match CheckMove(old(Snapshot()), id, part)
              case MoveRefused(e) => error == Some(e) && Snapshot() == old(Snapshot())
              case MoveDone => error.None? && Snapshot() == old(Snapshot())
              case MoveGoes => error.None? && Snapshot() == Renamed(old(Snapshot()), id, part)
      ensures error.None? ==> id in pairs && Slot(Snapshot(), part).None? && Archive(pairs[id], part) == Some(Recorded(id, part))
    {
      var check := CheckMove(Snapshot(), id, part);
      if check.MoveRefused? {
        return Some(check.error);
      }
      if check.MoveGoes? {
        if part.HoldPart? {
          pairs := pairs[id := pairs[id].(hold := hold)];
          hold := None;
        } else {
          pairs := pairs[id := pairs[id].(current := current)];
          current := None;
        }
      }
      return None;
    }
  }

  // ------------------------------------------------------------ runs

  // A move is a check and then a rename; the slots may change in between.
  datatype World = World(state: State, moving: Option<(PairId, Part)>)

  datatype Step =
    | DoPrepare
    | CheckOriginal(id: PairId, part: Part)
    | RenameOriginal
    | DoRelease(id: PairId)
    | DoSupersede(id: PairId)
    | Crash
    | SlotChanges(part: Part, bytes: Option<Bytes>)

  function Settle(w: World, r: Result<State, Error>): World {
    if r.Ok? then World(r.value, None) else w.(moving := None)
  }

  function Apply(w: World, step: Step): World {
    match step
    case DoPrepare => Settle(w, Prepare(w.state))
    case CheckOriginal(id, part) => w.(moving := if CheckMove(w.state, id, part).MoveGoes? then Some((id, part)) else None)
    case RenameOriginal =>
      if w.moving.Some? && w.moving.value.0 in w.state.pairs
      then World(Renamed(w.state, w.moving.value.0, w.moving.value.1), None) else w
    case DoRelease(id) => Settle(w, Release(w.state, id))
    case DoSupersede(id) => Settle(w, Supersede(w.state, id))
    case Crash => w.(moving := None)
    case SlotChanges(part, bytes) =>
      w.(state := if part.HoldPart? then w.state.(hold := bytes) else w.state.(current := bytes))
  }

  function Run(w: World, steps: seq<Step>): World {
    if steps == [] then w else Apply(Run(w, steps[..|steps| - 1]), steps[|steps| - 1])
  }

  function Start(h: Option<Bytes>, c: Option<Bytes>): World { World(State(h, c, map[]), None) }

  // ------------------------------------------------------------ invariant

  ghost predicate OnePending(s: State) {
    forall a, b | a in s.pairs && b in s.pairs && Pending(s.pairs[a]) && Pending(s.pairs[b]) :: a == b
  }

  ghost predicate ReleasedHeld(s: State) {
    forall id | id in s.pairs && s.pairs[id].released :: s.pairs[id].hold == Some(id.hold) && s.pairs[id].current == Some(id.current)
  }

  // A rename under way found its archive missing.
  ghost predicate Valid(w: World) {
    && OnePending(w.state) && ReleasedHeld(w.state)
    && (w.moving.Some? ==> w.moving.value.0 in w.state.pairs && Archive(w.state.pairs[w.moving.value.0], w.moving.value.1).None?)
  }

  lemma StepValid(w: World, step: Step)
    requires Valid(w)
    ensures Valid(Apply(w, step))
  {
  }

  lemma {:induction false} RunValid(h: Option<Bytes>, c: Option<Bytes>, steps: seq<Step>)
    ensures Valid(Run(Start(h, c), steps))
  {
    if steps != [] {
      RunValid(h, c, steps[..|steps| - 1]);
      StepValid(Run(Start(h, c), steps[..|steps| - 1]), steps[|steps| - 1]);
    }
  }

  // ------------------------------------------------------------ results

  lemma {:induction false} AtMostOnePending(h: Option<Bytes>, c: Option<Bytes>, steps: seq<Step>, a: PairId, b: PairId)
    requires var s := Run(Start(h, c), steps).state;
             a in s.pairs && b in s.pairs && Pending(s.pairs[a]) && Pending(s.pairs[b])
    ensures a == b
  {
    RunValid(h, c, steps);
  }

  // A pair is released in a step only with both archives equal to the record and
  // both slots empty, and stays archived byte for byte ever after.
  lemma ReleasedOnlyWhenOwned(h: Option<Bytes>, c: Option<Bytes>, steps: seq<Step>, step: Step, id: PairId)
    requires var s := Apply(Run(Start(h, c), steps), step).state; id in s.pairs && s.pairs[id].released
    ensures var w, v := Run(Start(h, c), steps), Apply(Run(Start(h, c), steps), step);
            && v.state.pairs[id].hold == Some(id.hold) && v.state.pairs[id].current == Some(id.current)
            && (id !in w.state.pairs || !w.state.pairs[id].released ==> v.state.hold.None? && v.state.current.None?)
  {
    RunValid(h, c, steps);
    StepValid(Run(Start(h, c), steps), step);
  }

  // Archives are written once: a rename never replaces one.
  lemma ArchivesAreKept(h: Option<Bytes>, c: Option<Bytes>, steps: seq<Step>, step: Step, id: PairId, part: Part)
    requires id in Run(Start(h, c), steps).state.pairs && Archive(Run(Start(h, c), steps).state.pairs[id], part).Some?
    ensures var w, v := Run(Start(h, c), steps), Apply(Run(Start(h, c), steps), step);
            id in v.state.pairs && Archive(v.state.pairs[id], part) == Archive(w.state.pairs[id], part)
  {
    RunValid(h, c, steps);
  }

  // The pair of a finished handoff cannot be handed off again: the record is
  // found, and the move is refused because the archive is taken.
  lemma SamePairIsRefused(s: State, id: PairId, part: Part)
    requires id in s.pairs && s.pairs[id].released && ReleasedHeld(s) && s.hold == Some(id.hold) && s.current == Some(id.current)
    ensures CheckMove(s, id, part) == MoveRefused(OwnershipConflict)
    ensures !AnyPending(s) ==> Prepare(s) == Ok(s)
  {
  }

  // A handoff is refused as pending exactly while some record is neither released nor
  // superseded; superseding the one that is lets the next one through.
  lemma PendingExactly(s: State)
    ensures Prepare(s) == Err(AlreadyPending) <==> exists id :: id in s.pairs && !s.pairs[id].released && !s.pairs[id].superseded
  {
  }

  lemma SupersededLetsGo(h: Option<Bytes>, c: Option<Bytes>, steps: seq<Step>, id: PairId)
    requires var s := Run(Start(h, c), steps).state;
             id in s.pairs && !s.pairs[id].released && !s.pairs[id].superseded && s.hold.Some? && s.current.Some?
    ensures var v := Apply(Run(Start(h, c), steps), DoSupersede(id)).state;
            Prepare(v).Ok? && v.pairs[id].hold == Run(Start(h, c), steps).state.pairs[id].hold
  {
    RunValid(h, c, steps);
    var s := Run(Start(h, c), steps).state;
    forall k | k in s.pairs && k != id
      ensures !Pending(s.pairs[k])
    {
      assert Pending(s.pairs[id]);
    }
  }

  function Move(w: World, id: PairId, part: Part): World {
    Apply(Apply(w, CheckOriginal(id, part)), RenameOriginal)
  }

  // Left alone, a new pair goes all the way, in either order: both originals end in
  // the archive byte for byte, both slots empty, the pair released.
  lemma HandoffCompletes(w: World, first: Part)
    requires w.state.hold.Some? && w.state.current.Some? && !AnyPending(w.state)
    requires PairId(w.state.hold.value, w.state.current.value) !in w.state.pairs
    ensures var id := PairId(w.state.hold.value, w.state.current.value);
            var second := if first.HoldPart? then CurrentPart else HoldPart;
            var v := Apply(Move(Move(Apply(w, DoPrepare), id, first), id, second), DoRelease(id));
            v.state == State(None, None, w.state.pairs[id := Pair(w.state.hold, w.state.current, true, false)])
  {
    var id := PairId(w.state.hold.value, w.state.current.value);
    var a := Apply(w, DoPrepare);
    assert a.state.pairs == w.state.pairs[id := Pair(None, None, false, false)];
    var b := Move(a, id, first);
    assert b.state.pairs == w.state.pairs[id := Pair(if first.HoldPart? then w.state.hold else None, if first.HoldPart? then None else w.state.current, false, false)];
    var c := Move(b, id, if first.HoldPart? then CurrentPart else HoldPart);
    assert c.state.pairs == w.state.pairs[id := Pair(w.state.hold, w.state.current, false, false)];
  }
}
