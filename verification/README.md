# CTD winch control core, modelled in Dafny

This project models the control core of a winch that lowers and raises a
CTD (conductivity, temperature, depth) probe on a line. The core is:

- the **Context**, a registry from state names to states together with the
  current state, and its `add_state`, `set_state`, `get_state`,
  `do_transition` and `entry_behavior` operations;
- the **Winch**, which holds the pending *state sequence* (a list that
  `queue_command` appends to and that `stop()` / `error()` preempt by
  inserting `STOP` / `ERROR` at its head), the depth in drum rotations, the
  motor direction, the sensor-enable flags, the error flag and message, and
  two fault timers; its actuation primitives (`up`, `down`, `motor_off`), the
  per-packet command decoder of `receive_commands`, and the four GPIO
  callbacks (slack, dock, out-of-line, drum rotation);
- the **entry behaviours** of the states, as far as they change the sequence
  or fields without blocking (Init, Standby, Cast, UpCast, ReadData, Error);
- the **Timer** stopwatch, and the **singleton** decorator's cache.

Files and modules:

| file | module | models |
|---|---|---|
| wrappers.dfy | Wrappers | `Option` (Python's `None`) and `Result` (a raised error) |
| timer.dfy | Timers | timer.py |
| singleton.dfy | Singletons | singleton.py |
| state.dfy | States | the `State` base class of states.py |
| context.dfy | Contexts | context.py |
| winch.dfy | WinchCore | winch.py |
| behaviours.dfy | Behaviours | the entry behaviours of states.py |

Conventions of the model:

- The clock is an integer `now`, in milliseconds, passed to every operation
  that reads the time; the 0.5 s "drum rotating too fast" threshold is
  `TooFastMs = 500`.
- A GPIO pin level is a boolean parameter `high` (true is `GPIO.HIGH`).
- A state-sequence item is an `Entry`: `Named(name)` for the bare strings
  `"STOP"` and `"ERROR"`, `Move(from, to)` for the `{"from": …, "to": …}`
  records.
- The direction strings `""`, `"up"` and `"down"` are `Idle`, `Up`, `Down`.
- The winch's fields are read back as two records: `Intake` (sequence,
  command, sensor-enable flags, error flag — what the command intake
  writes) and `Drum` (depth, target depth, direction, slack/dock/line
  status, error message, and the two timers' start times). Every
  state-changing method states both records after the call, so "nothing
  else changes" is part of each contract.
- The decoder is given the received text, or `None` when the receive timed
  out. `Classify` names the immediate tokens; `ClassifyExact` proves that
  exactly the texts `STOP`, `SLACKOFF`, … are recognised as them. `Decode`
  is the per-packet effect as a case table on `Intake`; the method
  `ReceivePacket` follows the source's sequence of `if` statements and is
  proved to have exactly the effect `Decode` gives. `DecodeAll` applies a
  run of packets, and the `DecodeAll…` lemmas state what any run of packets
  does.
- `do_transition` reads the current state's name before anything else
  (context.py:59), so with no current state it raises; the model returns
  `Failure(NoCurrentState)` and changes nothing. Running an entry behaviour
  needs the winch, so `DoTransition` and `EntryBehavior` return the entry
  call they make (`Call(state, args)`); the behaviours themselves are the
  methods of `Behaviours`.
- The Context invariant is stated on names: the current state's name is a
  key of the registry. The current state object itself need not stay in the
  registry, because `add_state` with a name that is already registered
  replaces the stored state while the current reference keeps the old one;
  an unknown-target transition then re-enters the registered state of that
  name (context.py:66), which the contract of `DoTransition` says.
- In the simulator branch, `up()`/`down()` change the module global
  `winch.depth` (winch.py:120, winch.py:138); the model changes the winch's
  own depth. The class-level attributes of `Winch`, including the two
  timers (winch.py:19, winch.py:63-64), are per-instance fields.

## Model

| member | source | states |
|---|---|---|
| Timers.Timer.constructor | timer.py:5-6 | a new timer is idle |
| Timers.Timer.Start | timer.py:8-10 | an idle timer records `now`; a running timer keeps its original start |
| Timers.Timer.Stop | timer.py:12-17 | idle: returns 0 and stays idle; running: returns `now` minus the start and becomes idle |
| Timers.Timer.Reset | timer.py:19-22 | returns what `CheckTime(now)` returned before the call and leaves the timer running from `now` |
| Timers.Timer.CheckTime | timer.py:25-29 | 0 when idle, `now` minus the start when running, never negative when the start is not after `now`; it reads the timer only |
| Timers.ApplyStartedBy | timer.py:8-29 | after any timer operation at `now` the timer is idle or started no later than `now`, and the operation returned a non-negative value |
| Timers.RunNonNegative | timer.py:12-29 | along any run of operations with a non-decreasing clock, every elapsed value returned is at least 0 |
| Singletons.Singleton.constructor | singleton.py:2-3 | decorating a class starts with an empty cache keyed by nothing |
| Singletons.Singleton.Call | singleton.py:5-10 | the first call constructs one instance from its arguments and caches it under the class; later calls return the cached instance unchanged, construct nothing and ignore their arguments; the cache holds only the class's entry and every call returns exactly it |
| Singletons.CallTwice | singleton.py:5-10 | two calls through one decorated class both return the instance built from the first call's arguments |
| States.State.GetName | states.py:15-26 | a state's name is the one it was constructed with |
| States.State.ToString | states.py:18-19 | `str` of a state is its name, the same as `get_name` |
| Contexts.Context.constructor | context.py:5-11 | a fresh context has the given name, an empty registry and no current state |
| Contexts.Register | context.py:19 | the state is stored under its own name, replacing a same-named one; every other entry is untouched and no key is lost |
| Contexts.RegisterKeyed | context.py:19 | registering keeps every state stored under its own name |
| Contexts.Context.AddState | context.py:13-20 | the registry becomes `Register(old registry, s)`, the current state is unchanged, and the invariant is kept |
| Contexts.Select | context.py:27-31 | a registered name selects the registered state; an unknown name keeps the current state |
| Contexts.SelectRegistered | context.py:27-28 | selecting keeps the current state's name in the registry |
| Contexts.Context.SetState | context.py:22-31 | the current state becomes `Select(registry, old current, name)`; the registry is unchanged; the invariant is kept |
| Contexts.Context.GetState | context.py:33-37 | returns the current state, whose name is registered |
| Contexts.EntryBehavior | context.py:68-75 | dispatches exactly when given a State, to that state with the arguments given; otherwise does nothing |
| Contexts.Context.DoTransition | context.py:53-66 | registered target: it becomes current and is entered with `msg[1]`; unknown target: the current state stays and the registered state of its name is re-entered with no arguments; no current state: an error and no change; the registry never changes |
| WinchCore.Winch.constructor | winch.py:16-64 | a new winch has the class-level defaults: empty sequence, depth 0, no command, no direction, all sensors enabled, no error, idle timers |
| WinchCore.Winch.QueueCommand | winch.py:101-103 | the entry is appended at the tail; every earlier entry keeps its position; nothing else changes |
| WinchCore.Winch.Stop | winch.py:156-166 | `STOP` is at index 0 and the old sequence follows it unchanged; nothing else changes |
| WinchCore.Winch.Error | winch.py:172-183 | `ERROR` is at index 0 and the old sequence follows it unchanged; the error message is the one given; nothing else changes |
| WinchCore.Winch.Down | winch.py:105-122 | direction becomes down; in sim mode depth grows by 1, otherwise it is unchanged |
| WinchCore.Winch.Up | winch.py:124-140 | direction becomes up; in sim mode depth shrinks by 1, otherwise it is unchanged |
| WinchCore.Winch.MotorOff | winch.py:142-149 | direction becomes none and the rotation timer is stopped; nothing else changes |
| WinchCore.ClassifyExact | winch.py:212-234 | a text is recognised as an immediate token exactly when it is that token's own text |
| WinchCore.Winch.ReceivePacket | winch.py:203-237 | one packet (or a timeout) has exactly the effect `Decode` gives on the intake fields, and no effect on any other field |
| WinchCore.DecodeSequence | winch.py:212-213 | a packet changes the sequence only when it is STOP, which inserts STOP at the head |
| WinchCore.DecodeSensorFlags | winch.py:214-231 | SLACKON/SLACKOFF, DOCKON/DOCKOFF and LINEON/LINEOFF each set only the matching flag; no other packet changes a flag |
| WinchCore.DecodeError | winch.py:232-234 | CLEARERROR clears the error flag; no packet sets it |
| WinchCore.DecodeCommand | winch.py:209-237 | STOP and any non-token text are kept verbatim as the command; the sensor tokens, CLEARERROR and a timeout leave no command |
| WinchCore.DecodeAllSequence | winch.py:203-213 | after any run of packets the sequence is one STOP per STOP packet followed by the earlier sequence, unchanged |
| WinchCore.DecodeAllSensorFlags | winch.py:203-231 | after any run of packets each sensor-enable flag is what its last ON/OFF packet set, or its earlier value |
| WinchCore.DecodeAllError | winch.py:203-234 | after any run of packets the error flag is set iff it was set before and no packet was CLEARERROR |
| WinchCore.DecodeAllCommand | winch.py:203-237 | after any run of packets the command depends only on the last packet; a final timeout leaves no command |
| WinchCore.Winch.SlackCallback | winch.py:240-250 | HIGH: slack timer restarted at `now`, slack flagged, motor off; LOW with slack: slack timer stopped, slack cleared; LOW without slack: no change |
| WinchCore.Winch.DockedCallback | winch.py:252-263 | LOW: docked, depth 0, STOP at the head; HIGH: only the docked flag is cleared |
| WinchCore.Winch.OutOfLineCallback | winch.py:265-278 | LOW: out of line, STOP at the head, depth untouched; HIGH: only the out-of-line flag is cleared |
| WinchCore.Winch.DepthCallback | winch.py:280-298 | exactly when 0 < elapsed < 500 ms since the last rotation, ERROR "Drum rotating too fast" goes to the head; the rotation timer always restarts from `now`; depth goes down by 1 when going up, up by 1 when going down, and is kept otherwise |
| Behaviours.InitEntry | states.py:80 | exactly one INIT→STDBY transition is appended; nothing else changes |
| Behaviours.StdbyEntry | states.py:99-101 | with a command present, one STDBY→command transition carrying the command verbatim is appended; nothing else changes |
| Behaviours.CastEntry | states.py:119-122 | the target depth is set and DOWNCAST, UPCAST and READDATA transitions are appended in that order after the existing entries |
| Behaviours.UpCastEntry | states.py:197-198 | with the simulated `up()`, it returns at depth 0 moving up from any positive depth, and at once with nothing changed otherwise |
| Behaviours.ReadDataEntry | states.py:214-215 | off the surface (depth ≠ 0) it raises "Winch not on surface, cannot read data"; at depth 0 sequence and message are untouched |
| Behaviours.ErrorEntry | states.py:233-236 | the sequence is exactly one ERROR→STDBY transition and the error message is cleared |

## Left out

- The UDP socket: binding, `settimeout` and `recvfrom` (winch.py:190-207). The decoder is given the decoded text, or `None` for a timeout (or for bytes that fail to decode, which the bare `except` also turns into `None`).
- Threads and interrupts: the command thread and the GPIO callbacks run concurrently in the source; here each packet and each callback is one atomic step.
- GPIO output and input calls (winch.py, InitState's pin setup, winch_controller.py, winch_distance_testing.py): pin writes are dropped, pin reads are boolean parameters.
- Wall-clock `time()` and float seconds: an integer millisecond clock is passed in, so `0 < check_time() < 0.5` becomes `0 < elapsed < 500`.
- `print`, `report_position`, `print_states`, and the `sleep(1)` of the simulator branch: output and delays only.
- `power_on`, `Winch.__init__`'s registration of the states, and `execute_state_stack`, which no file defines; the `StopState` and `SoakState` classes that `Winch.__init__` registers are not part of this model (states.py does not define them).
- The Winch's inheritance from Context: the modelled winch operations never read the registry, so the winch and the context are separate classes.
- DownCastState (it calls a `receive_command` that does not exist), ManualWinchOut/ManualWinchIn (they call `has_slack()` on a boolean; ManualWinchIn also reads the misspelt `comamnd`), and HelpState (it only prints).
- InitState's GPIO setup and the start of the command thread; CastState's `input()` prompt, replaced by the `target` parameter.
- The unused fields `conductivity`, `temp`, `soak_depth`, `soak_time`, `is_stopped` and the pin numbers; the calibration table, which is only initialised empty (winch.py:77).
- `get_context_name`: the context's name is the constant field `name`.
- Contexts.Call: the source's entry behaviours accept no arguments besides the winch, so `do_transition` with a non-empty `msg[1]` would fail when it calls one; the model records the arguments in the call it returns and the behaviours take none.
- Behaviours.StdbyEntry: the busy-wait for a command (states.py:99-100) is not modelled; with no command present the model changes nothing.
- Behaviours.UpCastEntry: requires the simulator, because outside it `up()` does not move the depth and the loop waits for the rotation callback running in another thread.
- Singletons.Singleton.Call: object identity is not modelled; constructing is the function `make` of the arguments, and a ghost counter records how often it ran.
