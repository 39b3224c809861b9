/** `release_concurrency_slot` is public: runs in which somebody who holds no slot calls it. */
module StrayReleases {
  import opened Daemon
  import opened Machine
  import opened WellFormed
  import opened Slots

  /** A step of the machine, or a release by somebody who holds nothing. */
  datatype Move = Taken(step: Step) | Stray

  ghost predicate Allowed(w: World, move: Move) {
    move.Taken? ==> Enabled(w, move.step)
  }

  ghost function Moved(w: World, move: Move): World
    requires Allowed(w, move)
  {
    match move
    case Taken(step) => Next(w, step)
    case Stray => w.(s := ReleaseSlot(w.s))
  }

  ghost predicate MovesOn(w: World, moves: seq<Move>)
    decreases |moves|
  {
    moves == [] || (Allowed(w, moves[0]) && MovesOn(Moved(w, moves[0]), moves[1..]))
  }

  /** Somebody holds a slot. */
  ghost predicate SlotHeld(w: World) {
    |w.s.inflight| + w.borrowed > 0
  }

  /** The books are right in every state of the run. */
  ghost predicate StaysConserved(w: World, moves: seq<Move>)
    requires MovesOn(w, moves)
    decreases |moves|
  {
    SlotsConserved(w) && (moves != [] ==> StaysConserved(Moved(w, moves[0]), moves[1..]))
  }

  /** Some stray release of the run comes while a slot is held. */
  ghost predicate StrayWhileHeld(w: World, moves: seq<Move>)
    requires MovesOn(w, moves)
    decreases |moves|
  {
    && moves != []
    && ((moves[0].Stray? && SlotHeld(w)) || StrayWhileHeld(Moved(w, moves[0]), moves[1..]))
  }

  lemma MoveFits(w: World, move: Move)
    requires Fits(w.s, w.known) && Allowed(w, move)
    ensures Fits(Moved(w, move).s, Moved(w, move).known)
  {
    if move.Taken? {
      StepFits(w, move.step);
    }
  }

  /** A move keeps the books right if and only if it is no stray release while a slot is held. */
  lemma MoveConservesExactly(w: World, move: Move)
    requires Fits(w.s, w.known) && SlotsConserved(w) && Allowed(w, move)
    ensures SlotsConserved(Moved(w, move)) <==> !(move.Stray? && SlotHeld(w))
  {
    match move
    case Taken(step) => StepMovesSlots(w, step);
    case Stray => UnpairedRelease(w);
  }

  /** A run keeps the books right throughout if and only if no stray release comes while a slot is
      held. */
  lemma {:induction false} RunConservesExactly(w: World, moves: seq<Move>)
    requires Fits(w.s, w.known) && SlotsConserved(w) && MovesOn(w, moves)
    ensures StaysConserved(w, moves) <==> !StrayWhileHeld(w, moves)
    decreases |moves|
  {
    if moves != [] {
      MoveFits(w, moves[0]);
      MoveConservesExactly(w, moves[0]);
      if SlotsConserved(Moved(w, moves[0])) {
        RunConservesExactly(Moved(w, moves[0]), moves[1..]);
      }
    }
  }
}
