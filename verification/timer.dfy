/**
 * The stopwatch of timer.py. The wall clock is not read: every operation
 * is given the current time `now` (an integer, in milliseconds).
 */
module Timers {
  import opened Wrappers

  /** The operations a caller can apply to a timer. */
  datatype Op = Start | Stop | Reset | Check

  /** Time since `start`, or 0 when the timer is idle. */
  function Elapsed(start: Option<int>, now: int): int
  {
    if start.None? then 0 else now - start.value
  }

  /** The timer was idle, or was started no later than `now`. */
  predicate StartedBy(start: Option<int>, now: int)
  {
    start.None? || start.value <= now
  }

  /**
   * One operation at time `now`: the new start time and the value the
   * operation returns (`start` returns nothing; it is recorded as 0).
   */
  function Apply(start: Option<int>, op: Op, now: int): (Option<int>, int)
  {
    match op
    case Start => (if start.None? then Some(now) else start, 0)
    case Stop => (None, Elapsed(start, now))
    case Reset => (Some(now), Elapsed(start, now))
    case Check => (start, Elapsed(start, now))
  }

  /** The values returned by a run of timed operations, from `start`. */
  function Run(start: Option<int>, ops: seq<(Op, int)>): (outs: seq<int>)
    ensures |outs| == |ops|
    decreases |ops|
  {
    if ops == [] then []
    else
      var (next, out) := Apply(start, ops[0].0, ops[0].1);
      [out] + Run(next, ops[1..])
  }

  predicate NonDecreasing(ops: seq<(Op, int)>)
  {
    forall i, j :: 0 <= i < j < |ops| ==> ops[i].1 <= ops[j].1
  }

  /** After an operation at time `now` the timer is idle or started by `now`. */
  lemma ApplyStartedBy(start: Option<int>, op: Op, now: int)
    requires StartedBy(start, now)
    ensures StartedBy(Apply(start, op, now).0, now)
    ensures Apply(start, op, now).1 >= 0
  {
  }

  /** Given a clock that never goes back, no operation returns a negative time. */
  lemma {:induction false} RunNonNegative(start: Option<int>, ops: seq<(Op, int)>)
    requires NonDecreasing(ops)
    requires |ops| > 0 ==> StartedBy(start, ops[0].1)
    ensures forall i :: 0 <= i < |ops| ==> Run(start, ops)[i] >= 0
    decreases |ops|
  {
    if ops != [] {
      var (next, out) := Apply(start, ops[0].0, ops[0].1);
      ApplyStartedBy(start, ops[0].0, ops[0].1);
      var rest := ops[1..];
      assert NonDecreasing(rest) by {
        forall i, j | 0 <= i < j < |rest| ensures rest[i].1 <= rest[j].1 {
          assert rest[i] == ops[i + 1] && rest[j] == ops[j + 1];
        }
      }
      if rest != [] {
        assert ops[0].1 <= rest[0].1 by { assert rest[0] == ops[1]; }
      }
      RunNonNegative(next, rest);
      assert Run(start, ops) == [out] + Run(next, rest);
    }
  }

  class Timer {
    var startTime: Option<int>

    /** A new timer is idle. */
    constructor ()
      ensures startTime == None
    {
      startTime := None;
    }

    /** Starting records `now` only when idle; a running timer keeps its start. */
    method Start(now: int)
      modifies this
      ensures old(startTime).None? ==> startTime == Some(now)
      ensures old(startTime).Some? ==> startTime == old(startTime)
      ensures startTime == Apply(old(startTime), Op.Start, now).0
    {
      if startTime.None? {
        startTime := Some(now);
      }
    }

    /** Stopping returns the time since the start (0 when idle) and leaves the timer idle. */
    method Stop(now: int) returns (elapsed: int)
      modifies this
      ensures old(startTime).None? ==> elapsed == 0
      ensures old(startTime).Some? ==> elapsed == now - old(startTime).value
      ensures startTime == None
      ensures (startTime, elapsed) == Apply(old(startTime), Op.Stop, now)
    {
      if startTime.None? {
        return 0;
      }
      elapsed := now - startTime.value;
      startTime := None;
    }

    /** Resetting returns what CheckTime would have returned and restarts from `now`. */
    method Reset(now: int) returns (elapsed: int)
      modifies this
      ensures elapsed == old(CheckTime(now))
      ensures startTime == Some(now)
      ensures (startTime, elapsed) == Apply(old(startTime), Op.Reset, now)
    {
      elapsed := CheckTime(now);
      startTime := Some(now);
    }

    /** The time since the start, 0 when idle; reading it changes nothing. */
    function CheckTime(now: int): (elapsed: int)
      reads this
      ensures startTime.None? ==> elapsed == 0
      ensures startTime.Some? ==> startTime.value + elapsed == now
      ensures StartedBy(startTime, now) ==> elapsed >= 0
      ensures (startTime, elapsed) == Apply(startTime, Op.Check, now)
    {
      if startTime.None? then 0 else now - startTime.value
    }
  }
}
