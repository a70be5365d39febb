/**
 * `DropBomb`: a guard that panics when it is dropped while still active.
 *
 * Rust runs `drop` when the value goes out of scope; here the drop is an
 * explicit call, `Drop`, which reports the outcome instead of unwinding.
 * `defuse(mut self)` takes the bomb by value, so in Rust it is dropped at
 * the end of `defuse`; the model writes that as `Defuse` followed by `Drop`.
 */
module DropGuard {

  /** What dropping the bomb does: panic ("BOOM!") or nothing. */
  datatype DropOutcome = Panicked | Quiet

  class DropBomb {
    var isActive: bool

    /** `DropBomb::new`: every new bomb is armed. */
    constructor ()
      ensures isActive
    {
      isActive := true;
    }

    /** `DropBomb::defuse`. */
    method Defuse()
      modifies this
      ensures !isActive
    {
      isActive := false;
    }

    /** `impl Drop for DropBomb`: it panics exactly when the bomb is still active. */
    method Drop() returns (outcome: DropOutcome)
      ensures outcome == Panicked <==> isActive
    {
      if isActive {
        outcome := Panicked;
      } else {
        outcome := Quiet;
      }
    }
  }

  /** `test_drop_bomb`: a bomb dropped without being defused panics. */
  method DropArmedBomb() returns (outcome: DropOutcome)
    ensures outcome == Panicked
  {
    var bomb := new DropBomb();
    outcome := bomb.Drop();
  }

  /** `test_defused_drop_bomb`: a defused bomb is dropped quietly. */
  method DropDefusedBomb() returns (outcome: DropOutcome)
    ensures outcome == Quiet
  {
    var bomb := new DropBomb();
    bomb.Defuse();
    outcome := bomb.Drop();
  }
}
