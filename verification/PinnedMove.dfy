// Byte-pinned moves: a file is renamed into a held slot only if its bytes are the
// pinned ones; every check and every rename is a step, and the application may
// rewrite the source between any two of them.  A rename is atomic and refuses an
// occupied destination.  Hashes are injective, so a pin is the bytes themselves.
module PinnedMove {
  import opened Common

  type Bytes = seq<nat>

  datatype Slots = Slots(source: Option<Bytes>, target: Option<Bytes>)

  datatype Point =
    | Idle
    | LookTarget            // pinned_move, after journaling
    | Rename
    | Inspect(final: bool)  // recover_pinned_move: which slot holds a file?
    | Restore               // the target holds other bytes
    | PutBack               // and the source was seen vacant
    | CheckSource(final: bool) // the target holds the pinned bytes

  datatype Answer = MovedVerified | SourceUnmoved

  // A call that came back, with the slots as they were then.
  datatype Return = Return(pin: Bytes, answer: Answer, slots: Slots)

  datatype World = World(slots: Slots, point: Point, pin: Bytes, recovering: bool, answers: seq<Return>, raised: nat)

  datatype Step =
    | BeginMove(pin: Bytes)
    | BeginRecover(pin: Bytes)
    | Advance
    | Crash
    | SourceChanges(bytes: Option<Bytes>)

  function Come(w: World, answer: Answer): World {
    w.(point := Idle, answers := w.answers + [Return(w.pin, answer, w.slots)])
  }

  function Raise(w: World): World { w.(point := Idle, raised := w.raised + 1) }

  function Next(w: World): World {
    match w.point
    case Idle => w
    case LookTarget => if w.slots.target.Some? then w.(point := Inspect(false)) else w.(point := Rename)
    case Rename =>
      if w.slots.source.None? || w.slots.target.Some? then Raise(w)
      else w.(slots := Slots(None, w.slots.source), point := Inspect(true))
    case Inspect(final) =>
      if w.slots.target.Some? then
        (if w.slots.target.value != w.pin then w.(point := Restore) else w.(point := CheckSource(final)))
      else if w.slots.source.None? || w.slots.source.value != w.pin then Raise(w)
      else if w.recovering then Come(w, SourceUnmoved)
      else if final then Raise(w)
      else w.(point := Rename)
    case Restore => if w.slots.source.Some? then Raise(w) else w.(point := PutBack)
    case PutBack =>
      if w.slots.source.Some? || w.slots.target.None? then Raise(w)
      else Raise(w.(slots := Slots(w.slots.target, None)))
    case CheckSource(_) => if w.slots.source.Some? then Raise(w) else Come(w, MovedVerified)
  }

  function Apply(w: World, step: Step): World {
    match step
    case BeginMove(pin) => if w.point.Idle? then w.(point := LookTarget, pin := pin, recovering := false) else w
    case BeginRecover(pin) => if w.point.Idle? then w.(point := Inspect(false), pin := pin, recovering := true) else w
    case Advance => Next(w)
    case Crash => w.(point := Idle)
    case SourceChanges(bytes) => w.(slots := w.slots.(source := bytes))
  }

  function Run(w: World, steps: seq<Step>): World {
    if steps == [] then w else Apply(Run(w, steps[..|steps| - 1]), steps[|steps| - 1])
  }

  function Start(slots: Slots): World { World(slots, Idle, [], false, [], 0) }

  function Contents(s: Slots): multiset<Bytes> {
    (if s.source.Some? then multiset{s.source.value} else multiset{})
    + (if s.target.Some? then multiset{s.target.value} else multiset{})
  }

  // ------------------------------------------------------------ results

  // The protocol itself never loses, copies or overwrites bytes, wherever it is
  // interrupted.
  lemma {:induction false} MovesConserveBytes(slots: Slots, steps: seq<Step>)
    requires forall i | 0 <= i < |steps| :: !steps[i].SourceChanges?
    ensures Contents(Run(Start(slots), steps).slots) == Contents(slots)
  {
    if steps != [] {
      MovesConserveBytes(slots, steps[..|steps| - 1]);
      StepConserves(Run(Start(slots), steps[..|steps| - 1]), steps[|steps| - 1]);
    }
  }

  // A step leaves the slots, or swaps a file with a vacancy.
  lemma StepSwaps(w: World, step: Step)
    requires !step.SourceChanges?
    ensures var s, t := w.slots, Apply(w, step).slots;
            t == s || (t == Slots(s.target, s.source) && (s.source.None? || s.target.None?))
  {
  }

  lemma StepConserves(w: World, step: Step)
    requires !step.SourceChanges?
    ensures Contents(Apply(w, step).slots) == Contents(w.slots)
  {
    StepSwaps(w, step);
    SwapConserves(w.slots);
  }

  lemma SwapConserves(s: Slots)
    ensures Contents(Slots(s.target, s.source)) == Contents(s)
  {
  }

  ghost predicate PinnedOnReturn(r: Return) {
    match r.answer
    case MovedVerified => r.slots == Slots(None, Some(r.pin))
    case SourceUnmoved => r.slots == Slots(Some(r.pin), None)
  }

  ghost predicate Valid(w: World) {
    && (w.point.CheckSource? ==> w.slots.target == Some(w.pin))
    && ((w.point.Restore? || w.point.PutBack?) ==> w.slots.target.Some? && w.slots.target.value != w.pin)
    && ((w.point.LookTarget? || w.point.Rename?) ==> !w.recovering)
    && (w.point == Inspect(true) ==> w.slots.target.Some? && !w.recovering)
    && (forall i | 0 <= i < |w.answers| :: PinnedOnReturn(w.answers[i]))
  }

  lemma {:induction false} RunValid(slots: Slots, steps: seq<Step>)
    ensures Valid(Run(Start(slots), steps))
  {
    if steps != [] {
      RunValid(slots, steps[..|steps| - 1]);
      StepValid(Run(Start(slots), steps[..|steps| - 1]), steps[|steps| - 1]);
    }
  }

  lemma StepValid(w: World, step: Step)
    requires Valid(w)
    ensures Valid(Apply(w, step))
  {
  }

  // Whatever the application does to the source meanwhile, a move returns only
  // with the pinned bytes at the target and the source vacant.
  lemma ReturnsAreVerified(slots: Slots, steps: seq<Step>, i: nat)
    requires i < |Run(Start(slots), steps).answers|
    ensures PinnedOnReturn(Run(Start(slots), steps).answers[i])
  {
    RunValid(slots, steps);
  }

  // Bytes held in the target leave it only for a vacant source, and only when they
  // are not the pinned ones.
  lemma HeldBytesStay(slots: Slots, steps: seq<Step>, step: Step)
    requires Run(Start(slots), steps).slots.target.Some?
    ensures var w, v := Run(Start(slots), steps), Apply(Run(Start(slots), steps), step);
            || v.slots.target == w.slots.target
            || (w.slots.target.value != w.pin && w.slots.source.None? && v.slots == Slots(w.slots.target, None))
  {
    RunValid(slots, steps);
  }

  function Finish(w: World): World { Next(Next(Next(Next(Next(w))))) }

  // Left alone, a move ends: it returns exactly when the pinned bytes are in one slot
  // and the other is vacant; otherwise it raises, and the only bytes it moved are
  // other bytes found in the target, put into a vacant source.
  lemma UndisturbedMoveExactly(w: World, pin: Bytes)
    requires w.point.Idle?
    ensures var v, pinned := Finish(Apply(w, BeginMove(pin))), Slots(None, Some(pin));
            && v.point.Idle?
            && (if w.slots == Slots(Some(pin), None) || w.slots == pinned
                then v.slots == pinned && v.answers == w.answers + [Return(pin, MovedVerified, pinned)] && v.raised == w.raised
                else v.answers == w.answers && v.raised == w.raised + 1
                     && v.slots == if w.slots.source.None? && w.slots.target.Some? then Slots(w.slots.target, None) else w.slots)
  {
  }

  // Left alone, a recovery ends: it tells where the pinned bytes are exactly when the
  // other slot is vacant.
  lemma UndisturbedRecoveryExactly(w: World, pin: Bytes)
    requires w.point.Idle?
    ensures var v := Finish(Apply(w, BeginRecover(pin)));
            && v.point.Idle?
            && (if w.slots == Slots(None, Some(pin)) then v.slots == w.slots && v.answers == w.answers + [Return(pin, MovedVerified, w.slots)]
                else if w.slots == Slots(Some(pin), None) then v.slots == w.slots && v.answers == w.answers + [Return(pin, SourceUnmoved, w.slots)]
                else v.answers == w.answers && v.raised == w.raised + 1)
  {
  }

  // A move that catches bytes other than the pinned ones puts them back.
  lemma ChangedSourceIsPutBack(w: World, bytes: Bytes)
    requires w.point == Rename && w.slots == Slots(Some(bytes), None) && bytes != w.pin
    ensures var v := Next(Next(Next(Next(w))));
            v.slots == w.slots && v.raised == w.raised + 1 && v.answers == w.answers && v.point.Idle?
  {
  }
}
