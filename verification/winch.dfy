/**
 * The Winch of winch.py: the pending state sequence, the depth in drum
 * rotations, the motor direction, the sensor flags and the two fault
 * timers, with the actuation primitives, the per-packet command decoder
 * and the GPIO callbacks. A pin level is a boolean (true is HIGH), the
 * clock is an integer `now` in milliseconds, and each callback or packet
 * is one atomic step.
 */
module WinchCore {
  import opened Wrappers
  import opened Timers

  /** An item of the state sequence: a bare state name, or a from/to transition record. */
  datatype Entry = Named(name: string) | Move(from: string, to: string)

  /** The direction strings "", "up" and "down". */
  datatype Direction = Idle | Up | Down

  /** Rotations closer together than this (0.5 s) mean the drum turns too fast. */
  const TooFastMs: int := 500

  const FastMessage: string := "Drum rotating too fast"

  /** The depth after one drum rotation: one less going up, one more going down, kept when idle. */
  function Counted(depth: int, direction: Direction): int
  {
    match direction
    case Up => depth - 1
    case Down => depth + 1
    case Idle => depth
  }

  /**
   * The fields the command intake writes: the state sequence (which STOP
   * also reaches), the live command, the sensor-enable flags and the error flag.
   */
  datatype Intake = Intake(
    sequence: seq<Entry>,
    command: Option<string>,
    slackSensorOn: bool,
    dockSensorOn: bool,
    lineSensorOn: bool,
    hasError: bool)

  /** The other fields: position and motion, sensed limits, error message and timers. */
  datatype Drum = Drum(
    depth: int,
    targetDepth: int,
    direction: Direction,
    hasSlack: bool,
    isDocked: bool,
    isOutOfLine: bool,
    errorMessage: string,
    slackStart: Option<int>,
    rotationStart: Option<int>)

  /** The class-level defaults of a freshly built winch. */
  const InitialIntake: Intake := Intake([], None, true, true, true, false)
  const InitialDrum: Drum := Drum(0, 0, Idle, false, false, false, "", None, None)

  // ---------------------------------------------------------------------
  // The command decoder, on values

  /** The tokens the decoder acts on at once; every other string is a plain command. */
  datatype Token = StopToken | SlackOff | SlackOn | DockOff | DockOn | LineOff | LineOn | ClearError | Other

  function Classify(p: string): Token
  {
    if p == "STOP" then StopToken
    else if p == "SLACKOFF" then SlackOff
    else if p == "SLACKON" then SlackOn
    else if p == "DOCKOFF" then DockOff
    else if p == "DOCKON" then DockOn
    else if p == "LINEOFF" then LineOff
    else if p == "LINEON" then LineOn
    else if p == "CLEARERROR" then ClearError
    else Other
  }

  /** Exactly the immediate tokens' own texts are recognised as them. */
  lemma ClassifyExact(p: string)
    ensures Classify(p) == StopToken <==> p == "STOP"
    ensures Classify(p) == SlackOff <==> p == "SLACKOFF"
    ensures Classify(p) == SlackOn <==> p == "SLACKON"
    ensures Classify(p) == DockOff <==> p == "DOCKOFF"
    ensures Classify(p) == DockOn <==> p == "DOCKON"
    ensures Classify(p) == LineOff <==> p == "LINEOFF"
    ensures Classify(p) == LineOn <==> p == "LINEON"
    ensures Classify(p) == ClearError <==> p == "CLEARERROR"
  {
  }

  /** The token of a received packet; None for a timeout. */
  function TokenOf(packet: Option<string>): Option<Token>
  {
    match packet
    case None => None
    case Some(p) => Some(Classify(p))
  }

  /**
   * What one received packet (None for a timeout) does: STOP is put at
   * the head of the sequence and stays the command; each sensor token
   * sets its flag, CLEARERROR clears the error flag, and these clear the
   * command; anything else becomes the command verbatim.
   */
  function Decode(w: Intake, packet: Option<string>): Intake
  {
    match packet
    case None => w.(command := None)
    case Some(p) =>
      match Classify(p)
      case StopToken => w.(command := Some(p), sequence := [Named("STOP")] + w.sequence)
      case SlackOff => w.(slackSensorOn := false, command := None)
      case SlackOn => w.(slackSensorOn := true, command := None)
      case DockOff => w.(dockSensorOn := false, command := None)
      case DockOn => w.(dockSensorOn := true, command := None)
      case LineOff => w.(lineSensorOn := false, command := None)
      case LineOn => w.(lineSensorOn := true, command := None)
      case ClearError => w.(hasError := false, command := None)
      case Other => w.(command := Some(p))
  }

  /** The state after a run of packets, the last one applied last. */
  function DecodeAll(w: Intake, packets: seq<Option<string>>): Intake
    decreases |packets|
  {
    if packets == [] then w
    else Decode(DecodeAll(w, packets[..|packets| - 1]), packets[|packets| - 1])
  }

  /** How many of the packets are STOP. */
  function StopCount(packets: seq<Option<string>>): nat
    decreases |packets|
  {
    if packets == [] then 0
    else StopCount(packets[..|packets| - 1]) + (if TokenOf(packets[|packets| - 1]) == Some(StopToken) then 1 else 0)
  }

  /** `n` STOP entries. */
  function Stops(n: nat): (r: seq<Entry>)
    ensures |r| == n
    ensures forall i :: 0 <= i < n ==> r[i] == Named("STOP")
  {
    if n == 0 then [] else [Named("STOP")] + Stops(n - 1)
  }

  /** A flag's value after the packets: the last `on` or `off` token decides, otherwise `init`. */
  function LastSetting(packets: seq<Option<string>>, on: Token, off: Token, init: bool): bool
    decreases |packets|
  {
    if packets == [] then init
    else if TokenOf(packets[|packets| - 1]) == Some(on) then true
    else if TokenOf(packets[|packets| - 1]) == Some(off) then false
    else LastSetting(packets[..|packets| - 1], on, off, init)
  }

  /** One packet changes the sequence only for STOP, which it puts at the head. */
  lemma DecodeSequence(w: Intake, packet: Option<string>)
    ensures Decode(w, packet).sequence ==
      if TokenOf(packet) == Some(StopToken) then [Named("STOP")] + w.sequence else w.sequence
  {
    match packet
    case None =>
    case Some(p) =>
      var t := Classify(p);
      match t
      case StopToken =>
      case SlackOff =>
      case SlackOn =>
      case DockOff =>
      case DockOn =>
      case LineOff =>
      case LineOn =>
      case ClearError =>
      case Other =>
  }

  /** One packet sets a sensor-enable flag only through that sensor's ON or OFF token. */
  lemma DecodeSensorFlags(w: Intake, packet: Option<string>)
    ensures Decode(w, packet).slackSensorOn ==
      if TokenOf(packet) == Some(SlackOn) then true
      else if TokenOf(packet) == Some(SlackOff) then false else w.slackSensorOn
    ensures Decode(w, packet).dockSensorOn ==
      if TokenOf(packet) == Some(DockOn) then true
      else if TokenOf(packet) == Some(DockOff) then false else w.dockSensorOn
    ensures Decode(w, packet).lineSensorOn ==
      if TokenOf(packet) == Some(LineOn) then true
      else if TokenOf(packet) == Some(LineOff) then false else w.lineSensorOn
  {
    match packet
    case None =>
    case Some(p) =>
      var t := Classify(p);
      match t
      case StopToken =>
      case SlackOff =>
      case SlackOn =>
      case DockOff =>
      case DockOn =>
      case LineOff =>
      case LineOn =>
      case ClearError =>
      case Other =>
  }

  /** One packet clears the error flag only when it is CLEARERROR, and never sets it. */
  lemma DecodeError(w: Intake, packet: Option<string>)
    ensures Decode(w, packet).hasError == (w.hasError && TokenOf(packet) != Some(ClearError))
  {
    match packet
    case None =>
    case Some(p) =>
      var t := Classify(p);
      match t
      case StopToken =>
      case SlackOff =>
      case SlackOn =>
      case DockOff =>
      case DockOn =>
      case LineOff =>
      case LineOn =>
      case ClearError =>
      case Other =>
  }

  /**
   * One packet leaves STOP and every non-token string as the command, verbatim;
   * a timeout and the other tokens leave no command.
   */
  lemma DecodeCommand(w: Intake, packet: Option<string>)
    ensures TokenOf(packet) == Some(StopToken) || TokenOf(packet) == Some(Other) ==>
      Decode(w, packet).command == packet
    ensures TokenOf(packet) != Some(StopToken) && TokenOf(packet) != Some(Other) ==>
      Decode(w, packet).command == None
  {
    match packet
    case None =>
    case Some(p) =>
      var t := Classify(p);
      match t
      case StopToken =>
      case SlackOff =>
      case SlackOn =>
      case DockOff =>
      case DockOn =>
      case LineOff =>
      case LineOn =>
      case ClearError =>
      case Other =>
  }

  /** Each STOP packet puts one STOP in front; the earlier sequence is kept behind them. */
  lemma {:induction false} DecodeAllSequence(w: Intake, packets: seq<Option<string>>)
    ensures DecodeAll(w, packets).sequence == Stops(StopCount(packets)) + w.sequence
    decreases |packets|
  {
    if packets != [] {
      var init := packets[..|packets| - 1];
      DecodeAllSequence(w, init);
      DecodeSequence(DecodeAll(w, init), packets[|packets| - 1]);
      var n := StopCount(init);
      if TokenOf(packets[|packets| - 1]) == Some(StopToken) {
        assert [Named("STOP")] + Stops(n) == Stops(n + 1);
        assert [Named("STOP")] + (Stops(n) + w.sequence) == ([Named("STOP")] + Stops(n)) + w.sequence;
      }
    }
  }

  /** Each sensor-enable flag ends as its last ON/OFF packet set it. */
  lemma {:induction false} DecodeAllSensorFlags(w: Intake, packets: seq<Option<string>>)
    ensures DecodeAll(w, packets).slackSensorOn == LastSetting(packets, SlackOn, SlackOff, w.slackSensorOn)
    ensures DecodeAll(w, packets).dockSensorOn == LastSetting(packets, DockOn, DockOff, w.dockSensorOn)
    ensures DecodeAll(w, packets).lineSensorOn == LastSetting(packets, LineOn, LineOff, w.lineSensorOn)
    decreases |packets|
  {
    if packets != [] {
      var init := packets[..|packets| - 1];
      DecodeAllSensorFlags(w, init);
      DecodeSensorFlags(DecodeAll(w, init), packets[|packets| - 1]);
    }
  }

  /** The error flag survives a run of packets iff none of them is CLEARERROR; nothing sets it. */
  lemma {:induction false} DecodeAllError(w: Intake, packets: seq<Option<string>>)
    ensures DecodeAll(w, packets).hasError ==
      (w.hasError && forall i :: 0 <= i < |packets| ==> TokenOf(packets[i]) != Some(ClearError))
    decreases |packets|
  {
    if packets != [] {
      var init := packets[..|packets| - 1];
      DecodeAllError(w, init);
      DecodeError(DecodeAll(w, init), packets[|packets| - 1]);
      assert forall i :: 0 <= i < |init| ==> init[i] == packets[i];
    }
  }

  /** The live command depends on the last packet alone, so a timeout always expires it. */
  lemma DecodeAllCommand(w: Intake, packets: seq<Option<string>>)
    requires packets != []
    ensures DecodeAll(w, packets).command == Decode(w, packets[|packets| - 1]).command
    ensures packets[|packets| - 1] == None ==> DecodeAll(w, packets).command == None
  {
    var last := packets[|packets| - 1];
    DecodeCommand(DecodeAll(w, packets[..|packets| - 1]), last);
    DecodeCommand(w, last);
  }

  // ---------------------------------------------------------------------
  // The winch object

  class Winch {
    /** Run against the simulated winch: up/down then move the depth themselves. */
    const sim: bool
    const slackTimer: Timer
    const rotationTimer: Timer

    var stateSequence: seq<Entry>
    /** Depth in drum rotations, not meters. */
    var depth: int
    var targetDepth: int
    var command: Option<string>
    var direction: Direction
    var hasSlack: bool
    var isDocked: bool
    var isOutOfLine: bool
    var hasError: bool
    var errorMessage: string
    var slackSensorOn: bool
    var dockSensorOn: bool
    var lineSensorOn: bool

    ghost predicate Valid()
      reads this
    {
      slackTimer != rotationTimer
    }

    function IntakeState(): Intake
      reads this
    {
      Intake(stateSequence, command, slackSensorOn, dockSensorOn, lineSensorOn, hasError)
    }

    function DrumState(): Drum
      reads this, slackTimer, rotationTimer
    {
      Drum(depth, targetDepth, direction, hasSlack, isDocked, isOutOfLine, errorMessage,
        slackTimer.startTime, rotationTimer.startTime)
    }

    /** A winch starts from the class-level defaults, with two idle timers of its own. */
    constructor (sim: bool)
      ensures Valid() && this.sim == sim
      ensures fresh(slackTimer) && fresh(rotationTimer)
      ensures IntakeState() == InitialIntake && DrumState() == InitialDrum
    {
      this.sim := sim;
      slackTimer := new Timer();
      rotationTimer := new Timer();
      stateSequence := [];
      depth, targetDepth := 0, 0;
      command := None;
      direction := Idle;
      hasSlack, isDocked, isOutOfLine, hasError := false, false, false, false;
      errorMessage := "";
      slackSensorOn, dockSensorOn, lineSensorOn := true, true, true;
    }

    /** `queue_command`: append at the tail; every earlier entry keeps its place. */
    method QueueCommand(entry: Entry)
      modifies this
      ensures |stateSequence| == |old(stateSequence)| + 1
      ensures stateSequence[..|old(stateSequence)|] == old(stateSequence)
      ensures stateSequence[|old(stateSequence)|] == entry
      ensures IntakeState() == old(IntakeState()).(sequence := old(stateSequence) + [entry])
      ensures DrumState() == old(DrumState())
    {
      stateSequence := stateSequence + [entry];
    }

    /** `stop`: STOP at the head, the old sequence shifted back by one. */
    method Stop()
      modifies this
      ensures |stateSequence| > 0 && stateSequence[0] == Named("STOP")
      ensures stateSequence[1..] == old(stateSequence)
      ensures IntakeState() == old(IntakeState()).(sequence := [Named("STOP")] + old(stateSequence))
      ensures DrumState() == old(DrumState())
    {
      stateSequence := [Named("STOP")] + stateSequence;
    }

    /** `error`: record the message and put ERROR at the head. */
    method Error(message: string)
      modifies this
      ensures |stateSequence| > 0 && stateSequence[0] == Named("ERROR")
      ensures stateSequence[1..] == old(stateSequence)
      ensures IntakeState() == old(IntakeState()).(sequence := [Named("ERROR")] + old(stateSequence))
      ensures DrumState() == old(DrumState()).(errorMessage := message)
    {
      errorMessage := message;
      stateSequence := [Named("ERROR")] + stateSequence;
    }

    /** `down`: pay out; the simulated winch descends one rotation. */
    method Down()
      modifies this
      ensures IntakeState() == old(IntakeState())
      ensures DrumState() == old(DrumState()).(direction := Direction.Down,
                                               depth := if sim then old(depth) + 1 else old(depth))
    {
      direction := Direction.Down;
      if sim {
        depth := depth + 1;
      }
    }

    /** `up`: pay in; the simulated winch ascends one rotation. */
    method Up()
      modifies this
      ensures IntakeState() == old(IntakeState())
      ensures DrumState() == old(DrumState()).(direction := Direction.Up,
                                               depth := if sim then old(depth) - 1 else old(depth))
    {
      direction := Direction.Up;
      if sim {
        depth := depth - 1;
      }
    }

    /** `motor_off`: no direction, and the rotation timer is stopped. */
    method MotorOff(now: int)
      requires Valid()
      modifies this, rotationTimer
      ensures IntakeState() == old(IntakeState())
      ensures DrumState() == old(DrumState()).(direction := Idle, rotationStart := None)
    {
      direction := Idle;
      var _ := rotationTimer.Stop(now);
    }

    /**
     * The body of the `receive_commands` loop for one received packet
     * (None when the receive timed out).
     */
    method ReceivePacket(packet: Option<string>)
      modifies this
      ensures IntakeState() == Decode(old(IntakeState()), packet)
      ensures DrumState() == old(DrumState())
    {
      if packet.None? {
        command := None;
        return;
      }
      command := packet;
      if command == Some("STOP") {
        Stop();
      }
      if command == Some("SLACKOFF") {
        slackSensorOn := false;
        command := None;
      }
      if command == Some("SLACKON") {
        slackSensorOn := true;
        command := None;
      }
      if command == Some("DOCKOFF") {
        dockSensorOn := false;
        command := None;
      }
      if command == Some("DOCKON") {
        dockSensorOn := true;
        command := None;
      }
      if command == Some("LINEOFF") {
        lineSensorOn := false;
        command := None;
      }
      if command == Some("LINEON") {
        lineSensorOn := true;
        command := None;
      }
      if command == Some("CLEARERROR") {
        hasError := false;
        command := None;
      }
    }

    /**
     * `slack_callback`: at HIGH restart the slack timer, flag slack and turn
     * the motor off; at LOW release the slack if it was flagged.
     */
    method SlackCallback(high: bool, now: int)
      requires Valid()
      modifies this, slackTimer, rotationTimer
      ensures IntakeState() == old(IntakeState())
      ensures high ==> DrumState() == old(DrumState()).(slackStart := Some(now), hasSlack := true,
                                                        direction := Idle, rotationStart := None)
      ensures !high && old(hasSlack) ==> DrumState() == old(DrumState()).(slackStart := None, hasSlack := false)
      ensures !high && !old(hasSlack) ==> DrumState() == old(DrumState())
    {
      if high {
        var _ := slackTimer.Reset(now);
        hasSlack := true;
        MotorOff(now);
      } else if hasSlack {
        var _ := slackTimer.Stop(now);
        hasSlack := false;
      }
    }

    /** `docked_callback`: at LOW the winch is docked, at depth 0, and stopped. */
    method DockedCallback(high: bool)
      modifies this
      ensures !high ==> IntakeState() == old(IntakeState()).(sequence := [Named("STOP")] + old(stateSequence))
      ensures !high ==> DrumState() == old(DrumState()).(isDocked := true, depth := 0)
      ensures high ==> IntakeState() == old(IntakeState())
      ensures high ==> DrumState() == old(DrumState()).(isDocked := false)
    {
      if !high {
        isDocked := true;
        depth := 0;
        Stop();
      } else {
        isDocked := false;
      }
    }

    /** `out_of_line_callback`: at LOW the line is out and the winch is stopped; depth is kept. */
    method OutOfLineCallback(high: bool)
      modifies this
      ensures !high ==> IntakeState() == old(IntakeState()).(sequence := [Named("STOP")] + old(stateSequence))
      ensures !high ==> DrumState() == old(DrumState()).(isOutOfLine := true)
      ensures high ==> IntakeState() == old(IntakeState())
      ensures high ==> DrumState() == old(DrumState()).(isOutOfLine := false)
    {
      if !high {
        isOutOfLine := true;
        Stop();
      } else {
        isOutOfLine := false;
      }
    }

    /**
     * `depth_callback`, once per drum rotation: a rotation less than 0.5 s
     * after the previous one stops the rotation timer and raises "Drum
     * rotating too fast"; the rotation timer then restarts from `now`; the
     * depth follows the direction.
     */
    method DepthCallback(now: int)
      requires Valid()
      modifies this, rotationTimer
      ensures var tooFast := 0 < old(rotationTimer.CheckTime(now)) < TooFastMs;
        IntakeState() == old(IntakeState()).(
          sequence := if tooFast then [Named("ERROR")] + old(stateSequence) else old(stateSequence))
      ensures var tooFast := 0 < old(rotationTimer.CheckTime(now)) < TooFastMs;
        DrumState() == old(DrumState()).(
          rotationStart := Some(now),
          depth := Counted(old(depth), old(direction)),
          errorMessage := if tooFast then FastMessage else old(errorMessage))
    {
      var elapsed := rotationTimer.CheckTime(now);
      if 0 < elapsed < TooFastMs {
        var _ := rotationTimer.Stop(now);
        Error(FastMessage);
      }
      var _ := rotationTimer.Reset(now);
      if direction == Direction.Up {
        depth := depth - 1;
      } else if direction == Direction.Down {
        depth := depth + 1;
      }
    }
  }
}
