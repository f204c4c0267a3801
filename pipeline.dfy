/**
  One iteration of the control loop as a function on values: `process_frame`
  (angle, smoothing, turn and zone rules, error paths) followed by the
  command debounce and the timing gate in front of `sendToRobot`.  Time is an
  integer number of microseconds (the resolution of `datetime`); the outcome
  of the HTTP request is an input.
 */
module Pipeline {
  import opened Wrappers
  import opened Angles
  import opened Buffers
  import opened Commands
  import opened Zones

  /** `GestureParams.default_speed`. */
  const DefaultSpeed: int := 160

  /** `GestureParams.command_cooldown`, 0.05 s, in microseconds. */
  const CommandCooldownUs: int := 50_000

  /** What the detector and the drawing code deliver for one frame.
      Hand: a hand was found; `degrees` is `math.degrees(atan2(...))` of the wrist to
      middle-finger-base vector, `middle` and `ring` the pixel positions of landmarks 9 and 13.
      Fault: an exception before the angle reaches the buffer (colour conversion, the
      detector, drawing, fewer than 14 landmarks).
      LateFault: an exception after the angle was appended (the text overlays). */
  datatype Frame =
    | NoHand
    | Hand(degrees: AtanDegrees, middle: Pixel, ring: Pixel)
    | Fault
    | LateFault(degrees: AtanDegrees)

  /** The mutable part of `GestureParams`. */
  datatype GestureState = GestureState(angles: seq<real>, commands: seq<Cmd>, lastCommand: Cmd, lastCommandTimeUs: int)

  /** Both deques within their `maxlen`, every stored angle normalised. */
  predicate Valid(s: GestureState) {
    && |s.angles| <= MaxLen
    && |s.commands| <= MaxLen
    && forall i :: 0 <= i < |s.angles| ==> InRange(s.angles[i])
  }

  /** `GestureParams()` created at time `nowUs`. */
  function Initial(nowUs: int): (s: GestureState)
    ensures Valid(s)
    ensures s.angles == [] && s.commands == []
    ensures s.lastCommand == Stop && s.lastCommandTimeUs == nowUs
  {
    GestureState([], [], Stop, nowUs)
  }

  /** The angle history after the frame, and the frame's `(command, speed)`. */
  datatype FrameResult = FrameResult(angles: seq<real>, command: Cmd, speed: int)

  /** Appending a normalised angle keeps the history normalised. */
  lemma PushInRange(angles: seq<real>, a: real)
    requires InRange(a)
    ensures (forall i :: 0 <= i < |angles| ==> InRange(angles[i])) ==>
              forall i :: 0 <= i < |Push(angles, a)| ==> InRange(Push(angles, a)[i])
  {
  }

  /** `process_frame` without its drawing. */
  function ProcessFrame(angles: seq<real>, frame: Frame): (r: FrameResult)
    ensures |angles| <= MaxLen ==> |r.angles| <= MaxLen
    ensures (forall i :: 0 <= i < |angles| ==> InRange(angles[i])) ==>
              forall i :: 0 <= i < |r.angles| ==> InRange(r.angles[i])
    ensures r.speed == (if frame.Fault? || frame.LateFault? then 0 else DefaultSpeed)
    ensures !frame.Hand? ==> r.command == Stop
    ensures frame.NoHand? || frame.Fault? ==> r.angles == angles
    ensures frame.Hand? || frame.LateFault? ==> r.angles == Push(angles, Orientation(frame.degrees))
    ensures frame.Hand? ==> r.command == Classify(Smooth(r.angles), frame.middle, frame.ring)
  {
    match frame
    case NoHand => FrameResult(angles, Stop, DefaultSpeed)
    case Fault => FrameResult(angles, Stop, 0)
    case LateFault(deg) =>
      PushInRange(angles, Orientation(deg));
      FrameResult(Push(angles, Orientation(deg)), Stop, 0)
    case Hand(deg, middle, ring) =>
      var buf := Push(angles, Orientation(deg));
      PushInRange(angles, Orientation(deg));
      FrameResult(buf, Classify(Smooth(buf), middle, ring), DefaultSpeed)
  }

  /** A hand frame's command is decided by the smoothed angle of the updated history. */
  lemma HandFrameCommand(angles: seq<real>, deg: AtanDegrees, middle: Pixel, ring: Pixel)
    requires forall i :: 0 <= i < |angles| ==> InRange(angles[i])
    ensures var r := ProcessFrame(angles, Hand(deg, middle, ring));
            && InRange(Smooth(r.angles))
            && (Smooth(r.angles) > TurnThreshold ==> r.command == Right)
            && (Smooth(r.angles) < -TurnThreshold ==> r.command == Left)
            && (r.command == Forward <==> -TurnThreshold <= Smooth(r.angles) <= TurnThreshold && BothInside(middle, ring, TopBox))
  {
    var r := ProcessFrame(angles, Hand(deg, middle, ring));
    SmoothInRange(r.angles);
  }

  /** The request `sendToRobot(command, speed)` would make; the URL carries the command
      as its letter `Code(command)`. */
  datatype Dispatch = Dispatch(command: Cmd, speed: int)

  /** The state after a step and the request attempted in it, if any. */
  datatype StepResult = StepResult(state: GestureState, attempt: Option<Dispatch>)

  /** Push the frame's command, take the majority, and send it when it differs from the
      last command sent successfully and the cooldown has elapsed since that send; the
      last command and its time change only when the send succeeds. */
  function Debounce(s: GestureState, command: Cmd, speed: int, nowUs: int, sendOk: bool): (r: StepResult)
    ensures r.state.angles == s.angles
    ensures r.state.commands == Push(s.commands, command)
    ensures r.attempt.Some? <==>
              MostCommon(r.state.commands) != s.lastCommand && nowUs - s.lastCommandTimeUs >= CommandCooldownUs
    ensures r.attempt.Some? ==> r.attempt.value == Dispatch(MostCommon(r.state.commands), speed)
    ensures r.attempt.Some? && sendOk ==>
              r.state.lastCommand == r.attempt.value.command && r.state.lastCommandTimeUs == nowUs
    ensures !(r.attempt.Some? && sendOk) ==>
              r.state.lastCommand == s.lastCommand && r.state.lastCommandTimeUs == s.lastCommandTimeUs
  {
    var commands := Push(s.commands, command);
    var majority := MostCommon(commands);
    if majority != s.lastCommand && nowUs - s.lastCommandTimeUs >= CommandCooldownUs then
      var sent := Dispatch(majority, speed);
      if sendOk then StepResult(GestureState(s.angles, commands, majority, nowUs), Some(sent))
      else StepResult(s.(commands := commands), Some(sent))
    else StepResult(s.(commands := commands), None)
  }

  /** One pass of the `while cap.isOpened()` loop. */
  function Step(s: GestureState, frame: Frame, nowUs: int, sendOk: bool): (r: StepResult)
    ensures Valid(s) ==> Valid(r.state)
  {
    var f := ProcessFrame(s.angles, frame);
    Debounce(s.(angles := f.angles), f.command, f.speed, nowUs, sendOk)
  }

  /** A frame without a hand leaves the angle history alone, still votes Stop, and any
      request it triggers carries the default speed. */
  lemma NoHandStep(s: GestureState, nowUs: int, sendOk: bool)
    ensures var r := Step(s, NoHand, nowUs, sendOk);
            && r.state.angles == s.angles
            && r.state.commands == Push(s.commands, Stop)
            && (r.attempt.Some? ==> r.attempt.value.speed == DefaultSpeed)
  {
  }

  /** A frame that raised votes Stop, and any request it triggers carries speed 0. */
  lemma FaultStep(s: GestureState, frame: Frame, nowUs: int, sendOk: bool)
    requires frame.Fault? || frame.LateFault?
    ensures var r := Step(s, frame, nowUs, sendOk);
            && r.state.commands == Push(s.commands, Stop)
            && (r.attempt.Some? ==> r.attempt.value.speed == 0)
  {
  }

  /** A failed send leaves the gate open: if the next frame, no earlier than this one,
      has the same majority, the request is attempted again. */
  lemma FailedSendRetried(s: GestureState, f1: Frame, t1: int, f2: Frame, t2: int, ok2: bool)
    requires Step(s, f1, t1, false).attempt.Some?
    requires t1 <= t2
    requires MostCommon(Step(Step(s, f1, t1, false).state, f2, t2, ok2).state.commands)
             == Step(s, f1, t1, false).attempt.value.command
    ensures Step(Step(s, f1, t1, false).state, f2, t2, ok2).attempt.Some?
  {
  }

  /** The history [Stop, Forward, Forward] sends Forward once the cooldown has passed
      and nothing before. */
  lemma DebounceExample(angles: seq<real>, speed: int, t0: int, nowUs: int)
    ensures var r := Debounce(GestureState(angles, [Stop, Stop, Forward], Stop, t0), Forward, speed, nowUs, true);
            && r.state.commands == [Stop, Forward, Forward]
            && (nowUs - t0 >= CommandCooldownUs <==> r.attempt == Some(Dispatch(Forward, speed)))
            && (nowUs - t0 < CommandCooldownUs <==> r.attempt == None)
  {
    TwoOfThreeWins([Stop, Forward, Forward], Forward);
  }

  /** The inputs of one loop iteration: the frame, the clock, the send's outcome. */
  datatype Tick = Tick(frame: Frame, nowUs: int, sendOk: bool)

  /** A request that was attempted, when, and whether it succeeded. */
  datatype Send = Send(dispatch: Dispatch, timeUs: int, ok: bool)

  datatype RunResult = RunResult(state: GestureState, sends: seq<Send>)

  /** The request attempted by one iteration, as a record of the run. */
  function Attempted(step: StepResult, t: Tick): (sends: seq<Send>) {
    if step.attempt.Some? then [Send(step.attempt.value, t.nowUs, t.sendOk)] else []
  }

  /** A loop that makes the pass `pass` once per item of `ticks`, in order: the state after
      the last pass and the requests attempted, in order, at most one per pass. */
  function RunWith(pass: (GestureState, Tick) -> StepResult, s: GestureState, ticks: seq<Tick>): (r: RunResult)
    ensures |r.sends| <= |ticks|
    decreases |ticks|
  {
    if ticks == [] then RunResult(s, [])
    else
      var step := pass(s, ticks[0]);
      var rest := RunWith(pass, step.state, ticks[1..]);
      RunResult(rest.state, Attempted(step, ticks[0]) + rest.sends)
  }

  /** Making `history` and then one more pass `t`: the state that pass leaves, and the
      requests of `history` followed by the one `t` attempted. */
  lemma {:induction false} RunWithSnoc(pass: (GestureState, Tick) -> StepResult, s: GestureState, history: seq<Tick>, t: Tick)
    ensures var prefix := RunWith(pass, s, history);
            var step := pass(prefix.state, t);
            RunWith(pass, s, history + [t]) == RunResult(step.state, prefix.sends + Attempted(step, t))
    decreases |history|
  {
    if history == [] {
      assert [] + [t] == [t];
      assert [t][1..] == [];
    } else {
      var first := pass(s, history[0]);
      RunWithSnoc(pass, first.state, history[1..], t);
      assert (history + [t])[0] == history[0];
      assert (history + [t])[1..] == history[1..] + [t];
      var prefix := RunWith(pass, first.state, history[1..]);
      var step := pass(prefix.state, t);
      assert Attempted(first, history[0]) + (prefix.sends + Attempted(step, t))
          == (Attempted(first, history[0]) + prefix.sends) + Attempted(step, t);
    }
  }

  /** One pass of the loop with the inputs of `t`. */
  function Pass(s: GestureState, t: Tick): (r: StepResult) {
    Step(s, t.frame, t.nowUs, t.sendOk)
  }

  /** The control loop over a sequence of iterations; each makes at most one request. */
  function Run(s: GestureState, ticks: seq<Tick>): (r: RunResult)
    ensures |r.sends| <= |ticks|
  {
    RunWith(Pass, s, ticks)
  }

  /** Running a non-empty sequence of iterations: the first, then the rest. */
  lemma RunCons(s: GestureState, ticks: seq<Tick>)
    requires ticks != []
    ensures var step := Step(s, ticks[0].frame, ticks[0].nowUs, ticks[0].sendOk);
            var rest := Run(step.state, ticks[1..]);
            Run(s, ticks) == RunResult(rest.state, Attempted(step, ticks[0]) + rest.sends)
  {
  }

  lemma TakeOneMore<T>(xs: seq<T>, i: nat)
    requires i < |xs|
    ensures xs[..i + 1] == xs[..i] + [xs[i]]
  {
  }

  /** Running `history` and then one more iteration `t`. */
  lemma RunSnoc(s: GestureState, history: seq<Tick>, t: Tick)
    ensures var prefix := Run(s, history);
            var step := Step(prefix.state, t.frame, t.nowUs, t.sendOk);
            Run(s, history + [t]) == RunResult(step.state, prefix.sends + Attempted(step, t))
  {
    RunWithSnoc(Pass, s, history, t);
  }

  /** The run of the first i + 1 ticks extends the run of the first i by one iteration. */
  lemma RunAdvance(s: GestureState, ticks: seq<Tick>, i: nat, prefix: RunResult, step: StepResult)
    requires i < |ticks|
    requires prefix == Run(s, ticks[..i])
    requires step == Step(prefix.state, ticks[i].frame, ticks[i].nowUs, ticks[i].sendOk)
    ensures Run(s, ticks[..i + 1]) == RunResult(step.state, prefix.sends + Attempted(step, ticks[i]))
  {
    TakeOneMore(ticks, i);
    RunSnoc(s, ticks[..i], ticks[i]);
  }

  /** A run from a valid state ends in a valid state. */
  lemma {:induction false} RunKeepsValid(s: GestureState, ticks: seq<Tick>)
    requires Valid(s)
    ensures Valid(Run(s, ticks).state)
    decreases |ticks|
  {
    if ticks != [] {
      RunKeepsValid(Step(s, ticks[0].frame, ticks[0].nowUs, ticks[0].sendOk).state, ticks[1..]);
    }
  }

  /** The last command sent successfully and its time, after a series of attempts made
      when `last` was the last one, sent at `lastTimeUs`. */
  function AfterSends(last: Cmd, lastTimeUs: int, sends: seq<Send>): (after: (Cmd, int))
    decreases |sends|
  {
    if sends == [] then (last, lastTimeUs)
    else
      var x := sends[|sends| - 1];
      if x.ok then (x.dispatch.command, x.timeUs) else AfterSends(last, lastTimeUs, sends[..|sends| - 1])
  }

  /** Every attempt names a command other than the last one sent successfully before it,
      and comes at least the cooldown after that success. */
  predicate GateRespected(last: Cmd, lastTimeUs: int, sends: seq<Send>) {
    forall k :: 0 <= k < |sends| ==>
      && sends[k].dispatch.command != AfterSends(last, lastTimeUs, sends[..k]).0
      && sends[k].timeUs - AfterSends(last, lastTimeUs, sends[..k]).1 >= CommandCooldownUs
  }

  /** One more attempt that passes the gate keeps the whole series within it. */
  lemma GateAppend(last: Cmd, lastTimeUs: int, sends: seq<Send>, x: Send)
    requires GateRespected(last, lastTimeUs, sends)
    requires x.dispatch.command != AfterSends(last, lastTimeUs, sends).0
    requires x.timeUs - AfterSends(last, lastTimeUs, sends).1 >= CommandCooldownUs
    ensures GateRespected(last, lastTimeUs, sends + [x])
  {
    var extended := sends + [x];
    forall k | 0 <= k < |extended|
      ensures extended[k].dispatch.command != AfterSends(last, lastTimeUs, extended[..k]).0
      ensures extended[k].timeUs - AfterSends(last, lastTimeUs, extended[..k]).1 >= CommandCooldownUs
    {
      if k < |sends| {
        assert extended[..k] == sends[..k] && extended[k] == sends[k];
      } else {
        assert extended[..k] == sends;
      }
    }
  }

  /** Over any run, the attempts respect the gate, and the state ends with the last
      successful attempt (or the initial values when none succeeded). */
  lemma {:induction false} RunRespectsGate(s: GestureState, ticks: seq<Tick>)
    ensures GateRespected(s.lastCommand, s.lastCommandTimeUs, Run(s, ticks).sends)
    ensures (Run(s, ticks).state.lastCommand, Run(s, ticks).state.lastCommandTimeUs)
            == AfterSends(s.lastCommand, s.lastCommandTimeUs, Run(s, ticks).sends)
    decreases |ticks|
  {
    if ticks != [] {
      var init, t := ticks[..|ticks| - 1], ticks[|ticks| - 1];
      assert init + [t] == ticks;
      RunRespectsGate(s, init);
      RunSnoc(s, init, t);
      var prefix := Run(s, init);
      var step := Step(prefix.state, t.frame, t.nowUs, t.sendOk);
      if step.attempt.Some? {
        var x := Send(step.attempt.value, t.nowUs, t.sendOk);
        GateAppend(s.lastCommand, s.lastCommandTimeUs, prefix.sends, x);
        var extended := prefix.sends + [x];
        assert extended[..|extended| - 1] == prefix.sends;
      } else {
        assert prefix.sends + Attempted(step, t) == prefix.sends;
      }
    }
  }

  /** The hand frames of the scenario below: palm straight up (0 degrees) three times,
      then turned to -110 degrees, with both reference points at `top`. */
  lemma ScenarioFrame1(top: Pixel)
    requires Inside(top, TopBox)
    ensures ProcessFrame([], Hand(90.0, top, top)) == FrameResult([0.0], Forward, DefaultSpeed)
  {
    assert Orientation(90.0) == 0.0;
    var buf := Push([], 0.0);
    assert buf == [0.0] by {
      PushNotFull([], 0.0);
    }
    assert Smooth(buf) == 0.0 by {
      SmoothClosedForm(buf);
    }
  }

  lemma ScenarioFrame2(top: Pixel)
    requires Inside(top, TopBox)
    ensures ProcessFrame([0.0], Hand(90.0, top, top)) == FrameResult([0.0, 0.0], Forward, DefaultSpeed)
  {
    assert Orientation(90.0) == 0.0;
    var buf := Push([0.0], 0.0);
    assert buf == [0.0, 0.0] by {
      PushNotFull([0.0], 0.0);
    }
    assert Smooth(buf) == 0.0 by {
      SmoothClosedForm(buf);
    }
  }

  lemma ScenarioFrame3(top: Pixel)
    requires Inside(top, TopBox)
    ensures ProcessFrame([0.0, 0.0], Hand(90.0, top, top)) == FrameResult([0.0, 0.0, 0.0], Forward, DefaultSpeed)
  {
    assert Orientation(90.0) == 0.0;
    var buf := Push([0.0, 0.0], 0.0);
    assert buf == [0.0, 0.0, 0.0] by {
      PushNotFull([0.0, 0.0], 0.0);
    }
    assert Smooth(buf) == 0.0 by {
      SmoothClosedForm(buf);
    }
  }

  lemma ScenarioFrame4(top: Pixel)
    ensures ProcessFrame([0.0, 0.0, 0.0], Hand(-20.0, top, top)) == FrameResult([0.0, 0.0, -110.0], Left, DefaultSpeed)
  {
    assert Orientation(-20.0) == -110.0;
    var buf := Push([0.0, 0.0, 0.0], -110.0);
    assert buf == [0.0, 0.0, -110.0] by {
      PushFull([0.0, 0.0, 0.0], -110.0);
    }
    assert Smooth(buf) == -22.0 by {
      SmoothClosedForm(buf);
    }
  }

  /** The votes of the scenario that do not depend on how ties are broken. */
  lemma ScenarioVotes()
    ensures MostCommon([Stop]) == Stop
    ensures MostCommon([Stop, Forward, Forward]) == Forward
    ensures MostCommon([Forward, Forward, Forward]) == Forward
    ensures MostCommon([Forward, Forward, Left]) == Forward
  {
    TwoOfThreeWins([Stop, Forward, Forward], Forward);
    TwoOfThreeWins([Forward, Forward, Forward], Forward);
    TwoOfThreeWins([Forward, Forward, Left], Forward);
  }

  /** The command deque after each frame of the scenario. */
  lemma ScenarioPushes()
    ensures Push([], Stop) == [Stop]
    ensures Push([Stop], Forward) == [Stop, Forward]
    ensures Push([Stop, Forward], Forward) == [Stop, Forward, Forward]
    ensures Push([Stop, Forward, Forward], Forward) == [Forward, Forward, Forward]
    ensures Push([Forward, Forward, Forward], Left) == [Forward, Forward, Left]
  {
    PushNotFull([], Stop);
    PushNotFull([Stop], Forward);
    PushNotFull([Stop, Forward], Forward);
    PushFull([Stop, Forward, Forward], Forward);
    PushFull([Forward, Forward, Forward], Left);
  }

  /** The scenario's states after its first, second, ... fifth frame. */
  function ScenarioState(k: nat, t0: int, t3: int): (s: GestureState)
    requires 1 <= k <= 5
  {
    if k == 1 then GestureState([], [Stop], Stop, t0)
    else if k == 2 then GestureState([0.0], [Stop, Forward], Stop, t0)
    else if k == 3 then GestureState([0.0, 0.0], [Stop, Forward, Forward], Forward, t3)
    else if k == 4 then GestureState([0.0, 0.0, 0.0], [Forward, Forward, Forward], Forward, t3)
    else GestureState([0.0, 0.0, -110.0], [Forward, Forward, Left], Forward, t3)
  }

  lemma ScenarioStep1(t0: int, t1: int, t3: int)
    ensures Step(Initial(t0), NoHand, t1, true) == StepResult(ScenarioState(1, t0, t3), None)
  {
    ScenarioVotes();
    ScenarioPushes();
  }

  lemma ScenarioStep2(top: Pixel, t0: int, t2: int, t3: int)
    requires Inside(top, TopBox)
    requires t2 - t0 < CommandCooldownUs
    ensures Step(ScenarioState(1, t0, t3), Hand(90.0, top, top), t2, true) == StepResult(ScenarioState(2, t0, t3), None)
  {
    var s := ScenarioState(1, t0, t3);
    var f := FrameResult([0.0], Forward, DefaultSpeed);
    assert ProcessFrame(s.angles, Hand(90.0, top, top)) == f by {
      ScenarioFrame1(top);
    }
    assert Debounce(s.(angles := f.angles), f.command, f.speed, t2, true) == StepResult(ScenarioState(2, t0, t3), None) by {
      assert Push(s.commands, Forward) == [Stop, Forward] by {
        ScenarioPushes();
      }
    }
  }

  lemma ScenarioStep3(top: Pixel, t0: int, t3: int)
    requires Inside(top, TopBox)
    requires t3 - t0 >= CommandCooldownUs
    ensures Step(ScenarioState(2, t0, t3), Hand(90.0, top, top), t3, true)
            == StepResult(ScenarioState(3, t0, t3), Some(Dispatch(Forward, DefaultSpeed)))
  {
    var s := ScenarioState(2, t0, t3);
    var f := FrameResult([0.0, 0.0], Forward, DefaultSpeed);
    assert ProcessFrame(s.angles, Hand(90.0, top, top)) == f by {
      ScenarioFrame2(top);
    }
    assert Debounce(s.(angles := f.angles), f.command, f.speed, t3, true) == StepResult(ScenarioState(3, t0, t3), Some(Dispatch(Forward, DefaultSpeed))) by {
      assert Push(s.commands, Forward) == [Stop, Forward, Forward] by {
        ScenarioPushes();
      }
      ScenarioVotes();
    }
  }

  lemma ScenarioStep4(top: Pixel, t0: int, t3: int, t4: int)
    requires Inside(top, TopBox)
    ensures Step(ScenarioState(3, t0, t3), Hand(90.0, top, top), t4, true) == StepResult(ScenarioState(4, t0, t3), None)
  {
    var s := ScenarioState(3, t0, t3);
    var f := FrameResult([0.0, 0.0, 0.0], Forward, DefaultSpeed);
    assert ProcessFrame(s.angles, Hand(90.0, top, top)) == f by {
      ScenarioFrame3(top);
    }
    assert Debounce(s.(angles := f.angles), f.command, f.speed, t4, true) == StepResult(ScenarioState(4, t0, t3), None) by {
      assert Push(s.commands, Forward) == [Forward, Forward, Forward] by {
        ScenarioPushes();
      }
      ScenarioVotes();
    }
  }

  lemma ScenarioStep5(top: Pixel, t0: int, t3: int, t5: int)
    ensures Step(ScenarioState(4, t0, t3), Hand(-20.0, top, top), t5, true) == StepResult(ScenarioState(5, t0, t3), None)
  {
    var s := ScenarioState(4, t0, t3);
    var f := FrameResult([0.0, 0.0, -110.0], Left, DefaultSpeed);
    assert ProcessFrame(s.angles, Hand(-20.0, top, top)) == f by {
      ScenarioFrame4(top);
    }
    assert Debounce(s.(angles := f.angles), f.command, f.speed, t5, true) == StepResult(ScenarioState(5, t0, t3), None) by {
      assert Push(s.commands, Left) == [Forward, Forward, Left] by {
        ScenarioPushes();
      }
      ScenarioVotes();
    }
  }

  /** The scenario's frames from the fifth on, from the fourth on, and so on. */
  lemma ScenarioTail5(top: Pixel, t0: int, t3: int, t5: int)
    ensures Run(ScenarioState(4, t0, t3), [Tick(Hand(-20.0, top, top), t5, true)]).sends == []
  {
    var ticks := [Tick(Hand(-20.0, top, top), t5, true)];
    RunCons(ScenarioState(4, t0, t3), ticks);
    assert ticks[1..] == [];
    ScenarioStep5(top, t0, t3, t5);
  }

  lemma ScenarioTail4(top: Pixel, t0: int, t3: int, t4: int, t5: int)
    requires Inside(top, TopBox)
    ensures Run(ScenarioState(3, t0, t3), [Tick(Hand(90.0, top, top), t4, true), Tick(Hand(-20.0, top, top), t5, true)]).sends == []
  {
    var ticks := [Tick(Hand(90.0, top, top), t4, true), Tick(Hand(-20.0, top, top), t5, true)];
    RunCons(ScenarioState(3, t0, t3), ticks);
    assert ticks[1..] == [Tick(Hand(-20.0, top, top), t5, true)];
    ScenarioStep4(top, t0, t3, t4);
    ScenarioTail5(top, t0, t3, t5);
  }

  lemma ScenarioTail3(top: Pixel, t0: int, t3: int, t4: int, t5: int)
    requires Inside(top, TopBox)
    requires t3 - t0 >= CommandCooldownUs
    ensures Run(ScenarioState(2, t0, t3), [Tick(Hand(90.0, top, top), t3, true), Tick(Hand(90.0, top, top), t4, true),
                                           Tick(Hand(-20.0, top, top), t5, true)]).sends
            == [Send(Dispatch(Forward, DefaultSpeed), t3, true)]
  {
    var ticks := [Tick(Hand(90.0, top, top), t3, true), Tick(Hand(90.0, top, top), t4, true), Tick(Hand(-20.0, top, top), t5, true)];
    RunCons(ScenarioState(2, t0, t3), ticks);
    assert ticks[1..] == [Tick(Hand(90.0, top, top), t4, true), Tick(Hand(-20.0, top, top), t5, true)];
    ScenarioStep3(top, t0, t3);
    ScenarioTail4(top, t0, t3, t4, t5);
  }

  lemma ScenarioTail2(top: Pixel, t0: int, t2: int, t3: int, t4: int, t5: int)
    requires Inside(top, TopBox)
    requires t2 - t0 < CommandCooldownUs
    requires t3 - t0 >= CommandCooldownUs
    ensures Run(ScenarioState(1, t0, t3), [Tick(Hand(90.0, top, top), t2, true), Tick(Hand(90.0, top, top), t3, true),
                                           Tick(Hand(90.0, top, top), t4, true), Tick(Hand(-20.0, top, top), t5, true)]).sends
            == [Send(Dispatch(Forward, DefaultSpeed), t3, true)]
  {
    var ticks := [Tick(Hand(90.0, top, top), t2, true), Tick(Hand(90.0, top, top), t3, true),
                  Tick(Hand(90.0, top, top), t4, true), Tick(Hand(-20.0, top, top), t5, true)];
    RunCons(ScenarioState(1, t0, t3), ticks);
    assert ticks[1..] == [Tick(Hand(90.0, top, top), t3, true), Tick(Hand(90.0, top, top), t4, true), Tick(Hand(-20.0, top, top), t5, true)];
    ScenarioStep2(top, t0, t2, t3);
    ScenarioTail3(top, t0, t3, t4, t5);
  }

  /** Five frames, the raw commands of which are Stop, Forward, Forward, Forward, Left;
      the second comes within the cooldown of the start at `t0` (so the tie [Stop, Forward]
      sends nothing whichever way it is broken), the third at least the cooldown after it.
      Only Forward is ever sent: Left never wins the vote. */
  lemma FiveFrameScenario(top: Pixel, t0: int, t1: int, t2: int, t3: int, t4: int, t5: int)
    requires Inside(top, TopBox)
    requires t2 - t0 < CommandCooldownUs
    requires t3 - t0 >= CommandCooldownUs
    ensures
      var ticks := [Tick(NoHand, t1, true),
                    Tick(Hand(90.0, top, top), t2, true),
                    Tick(Hand(90.0, top, top), t3, true),
                    Tick(Hand(90.0, top, top), t4, true),
                    Tick(Hand(-20.0, top, top), t5, true)];
      Run(Initial(t0), ticks).sends == [Send(Dispatch(Forward, DefaultSpeed), t3, true)]
  {
    var ticks := [Tick(NoHand, t1, true),
                  Tick(Hand(90.0, top, top), t2, true),
                  Tick(Hand(90.0, top, top), t3, true),
                  Tick(Hand(90.0, top, top), t4, true),
                  Tick(Hand(-20.0, top, top), t5, true)];
    RunCons(Initial(t0), ticks);
    assert ticks[1..] == [Tick(Hand(90.0, top, top), t2, true), Tick(Hand(90.0, top, top), t3, true),
                          Tick(Hand(90.0, top, top), t4, true), Tick(Hand(-20.0, top, top), t5, true)];
    ScenarioStep1(t0, t1, t3);
    ScenarioTail2(top, t0, t2, t3, t4, t5);
  }
}
