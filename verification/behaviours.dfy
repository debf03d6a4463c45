/**
 * The entry behaviours of states.py, as far as they change the winch's
 * state sequence and fields without blocking. Each takes the winch the
 * way `on_entry_behavior(self, winch)` does.
 */
module Behaviours {
  import opened Wrappers
  import opened WinchCore

  const NotOnSurface: string := "Winch not on surface, cannot read data"

  /** InitState: queue exactly one INIT to STDBY transition. */
  method InitEntry(w: Winch)
    modifies w
    ensures w.stateSequence == old(w.stateSequence) + [Move("INIT", "STDBY")]
    ensures w.IntakeState() == old(w.IntakeState()).(sequence := w.stateSequence)
    ensures w.DrumState() == old(w.DrumState())
  {
    w.QueueCommand(Move("INIT", "STDBY"));
  }

  /**
   * StdbyState, once a command is present: queue a STDBY transition to the
   * command, verbatim. While there is no command the source spins; one
   * look at an absent command changes nothing.
   */
  method StdbyEntry(w: Winch)
    modifies w
    ensures old(w.command).Some? ==>
      w.stateSequence == old(w.stateSequence) + [Move("STDBY", old(w.command).value)]
    ensures old(w.command).None? ==> w.stateSequence == old(w.stateSequence)
    ensures w.IntakeState() == old(w.IntakeState()).(sequence := w.stateSequence)
    ensures w.DrumState() == old(w.DrumState())
  {
    if w.command.Some? {
      w.QueueCommand(Move("STDBY", w.command.value));
    }
  }

  /** CastState: set the target depth, then queue DOWNCAST, UPCAST and READDATA in that order. */
  method CastEntry(w: Winch, target: int)
    modifies w
    ensures w.stateSequence == old(w.stateSequence) +
      [Move("CAST", "DOWNCAST"), Move("DOWNCAST", "UPCAST"), Move("UPCAST", "READDATA")]
    ensures w.IntakeState() == old(w.IntakeState()).(sequence := w.stateSequence)
    ensures w.DrumState() == old(w.DrumState()).(targetDepth := target)
  {
    w.targetDepth := target;
    w.QueueCommand(Move("CAST", "DOWNCAST"));
    w.QueueCommand(Move("DOWNCAST", "UPCAST"));
    w.QueueCommand(Move("UPCAST", "READDATA"));
  }

  /**
   * UpCastState on the simulated winch: reel in while the depth is positive;
   * it returns at depth 0 from any positive depth, and at once otherwise.
   */
  method UpCastEntry(w: Winch)
    requires w.sim
    modifies w
    ensures old(w.depth) > 0 ==> w.depth == 0 && w.direction == Direction.Up
    ensures old(w.depth) <= 0 ==> w.depth == old(w.depth) && w.direction == old(w.direction)
    ensures w.IntakeState() == old(w.IntakeState())
    ensures w.DrumState() == old(w.DrumState()).(depth := w.depth, direction := w.direction)
  {
    while w.depth > 0
      invariant old(w.depth) > 0 ==> 0 <= w.depth <= old(w.depth)
      invariant old(w.depth) <= 0 ==> w.depth == old(w.depth) && w.direction == old(w.direction)
      invariant w.depth < old(w.depth) ==> w.direction == Direction.Up
      invariant w.IntakeState() == old(w.IntakeState())
      invariant w.DrumState() == old(w.DrumState()).(depth := w.depth, direction := w.direction)
      decreases w.depth
    {
      w.Up();
    }
  }

  /** ReadDataState: off the surface it raises an error; at depth 0 it changes nothing. */
  method ReadDataEntry(w: Winch)
    modifies w
    ensures old(w.depth) != 0 ==>
      w.stateSequence == [Named("ERROR")] + old(w.stateSequence) && w.errorMessage == NotOnSurface
    ensures old(w.depth) == 0 ==>
      w.stateSequence == old(w.stateSequence) && w.errorMessage == old(w.errorMessage)
    ensures w.IntakeState() == old(w.IntakeState()).(sequence := w.stateSequence)
    ensures w.DrumState() == old(w.DrumState()).(errorMessage := w.errorMessage)
  {
    if w.depth != 0 {
      w.Error(NotOnSurface);
    }
  }

  /** ErrorState: the sequence becomes one ERROR to STDBY transition and the message is cleared. */
  method ErrorEntry(w: Winch)
    modifies w
    ensures w.stateSequence == [Move("ERROR", "STDBY")]
    ensures w.errorMessage == ""
    ensures w.IntakeState() == old(w.IntakeState()).(sequence := w.stateSequence)
    ensures w.DrumState() == old(w.DrumState()).(errorMessage := "")
  {
    w.stateSequence := [];
    w.errorMessage := "";
    w.QueueCommand(Move("ERROR", "STDBY"));
  }
}
