/**
  `GestureParams` as an object whose deques and last-command fields are
  updated in place, one frame at a time, by `process_frame` and by the body of
  the main loop.  Each method is proved against the functions of `Pipeline`.
 */
module Tracker {
  import opened Wrappers
  import opened Angles
  import opened Buffers
  import opened Commands
  import opened Zones
  import opened Pipeline

  class GestureParams {
    var angleBuffer: seq<real>
    var commandBuffer: seq<Cmd>
    var lastCommand: Cmd
    var lastCommandTimeUs: int
    const commandCooldownUs: int
    const defaultSpeed: int

    /** The mutable fields as a value. */
    function State(): GestureState
      reads this
    {
      GestureState(angleBuffer, commandBuffer, lastCommand, lastCommandTimeUs)
    }

    ghost predicate Valid()
      reads this
    {
      && Pipeline.Valid(State())
      && commandCooldownUs == CommandCooldownUs
      && defaultSpeed == DefaultSpeed
    }

    /** `GestureParams()`, at time `nowUs`. */
    constructor (nowUs: int)
      ensures Valid()
      ensures State() == Initial(nowUs)
    {
      angleBuffer := [];
      commandBuffer := [];
      lastCommand := Stop;
      lastCommandTimeUs := nowUs;
      commandCooldownUs := CommandCooldownUs;
      defaultSpeed := DefaultSpeed;
    }

    /** `process_frame(frame, params)`: updates the angle deque and returns the frame's
        command and speed. */
    method ProcessFrame(frame: Frame) returns (command: Cmd, speed: int)
      requires Valid()
      modifies this
      ensures Valid()
      ensures FrameResult(angleBuffer, command, speed) == Pipeline.ProcessFrame(old(angleBuffer), frame)
      ensures commandBuffer == old(commandBuffer)
      ensures lastCommand == old(lastCommand) && lastCommandTimeUs == old(lastCommandTimeUs)
    {
      command := Stop;
      speed := defaultSpeed;
      match frame {
        case NoHand =>
        case Fault =>
          speed := 0;
        case LateFault(deg) =>
          PushInRange(angleBuffer, Orientation(deg));
          angleBuffer := Push(angleBuffer, Orientation(deg));
          speed := 0;
        case Hand(deg, middle, ring) =>
          var angle := Orientation(deg);
          PushInRange(angleBuffer, angle);
          angleBuffer := Push(angleBuffer, angle);
          var smoothed := Smooth(angleBuffer);
          var turn := false;
          if smoothed > TurnThreshold {
            command := Right;
            turn := true;
          } else if smoothed < -TurnThreshold {
            command := Left;
            turn := true;
          }
          if !turn {
            if BothInside(middle, ring, TopBox) {
              command := Forward;
            } else if BothInside(middle, ring, BottomBox) {
              command := Backward;
            }
          }
      }
    }

    /** The command smoothing and timed emission of the main loop.  `sendOk` is what
        `sendToRobot` returns if it is called; `attempt` is the call made, if any. */
    method Debounce(command: Cmd, speed: int, nowUs: int, sendOk: bool) returns (attempt: Option<Dispatch>)
      requires Valid()
      modifies this
      ensures Valid()
      ensures StepResult(State(), attempt) == Pipeline.Debounce(old(State()), command, speed, nowUs, sendOk)
    {
      commandBuffer := Push(commandBuffer, command);
      var mostCommon := MostCommon(commandBuffer);
      var timeDiff := nowUs - lastCommandTimeUs;
      attempt := None;
      if mostCommon != lastCommand && timeDiff >= commandCooldownUs {
        attempt := Some(Dispatch(mostCommon, speed));
        if sendOk {
          lastCommand := mostCommon;
          lastCommandTimeUs := nowUs;
        }
      }
    }

    /** One iteration of `while cap.isOpened()`. */
    method Step(frame: Frame, nowUs: int, sendOk: bool) returns (attempt: Option<Dispatch>)
      requires Valid()
      modifies this
      ensures Valid()
      ensures StepResult(State(), attempt) == Pipeline.Step(old(State()), frame, nowUs, sendOk)
    {
      var command, speed := ProcessFrame(frame);
      attempt := Debounce(command, speed, nowUs, sendOk);
    }

    /** The main loop over the iterations `ticks`; returns every request attempted. */
    method Loop(ticks: seq<Tick>) returns (sends: seq<Send>)
      requires Valid()
      modifies this
      ensures Valid()
      ensures RunResult(State(), sends) == Run(old(State()), ticks)
      ensures GateRespected(old(lastCommand), old(lastCommandTimeUs), sends)
    {
      ghost var start := State();
      sends := [];
      var i := 0;
      while i < |ticks|
        invariant 0 <= i <= |ticks|
        invariant Valid()
        invariant RunResult(State(), sends) == Run(start, ticks[..i])
      {
        var t := ticks[i];
        ghost var prefix := RunResult(State(), sends);
        var attempt := Step(t.frame, t.nowUs, t.sendOk);
        RunAdvance(start, ticks, i, prefix, StepResult(State(), attempt));
        if attempt.Some? {
          sends := sends + [Send(attempt.value, t.nowUs, t.sendOk)];
        }
        i := i + 1;
      }
      assert ticks[..i] == ticks;
      RunRespectsGate(start, ticks);
    }
  }
}
