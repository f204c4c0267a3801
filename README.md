# Hand-gesture robot controller: a Dafny model of its gesture pipeline

`Handtracker/handtracker.py` turns webcam frames into motion commands for a
robot, which receives them over HTTP. Once the hand detector has delivered its
landmarks, the program works frame by frame:

- It computes the palm orientation from the wrist and the base of the middle finger.
  It subtracts 90 degrees and folds the result into (-180, 180].
- It appends the angle to a `deque(maxlen=3)` and smooths the history with
  `np.average` and the weights `[0.5, 0.3, 0.2]`.
- It classifies the frame:
  - Right or Left when the smoothed angle leaves the ±20 degree deadzone;
  - otherwise Forward or Backward when landmarks 9 and 13 both lie strictly inside
    the upper or the lower 200×200 box;
  - otherwise Stop.
- The main loop pushes the frame's command into a second `deque(maxlen=3)` and takes
  the most frequent command.
- It calls `sendToRobot` only when that command differs from the last one sent
  successfully and 0.05 s have passed since that send (before any successful send:
  since `GestureParams` was created, with Stop as the last command).
- It records the command and the time only when the send reports success.

The model has these modules:

- `Buffers`: the bounded deques as sequences. A push is the window of the last three items.
- `Angles`:
  - normalisation (`Fold`, `Orientation`);
  - the weighted average (`Smooth`), with its closed forms and its bounds.
- `Commands`:
  - the five commands and their one-letter wire codes. A `Cmd` in a request
    (`Pipeline.Dispatch`) stands for the letter `Code` gives it, which is the
    `command` query parameter of the URL built by `sendToRobot` (line 85);
  - `buf.count`, and the majority vote.
- `Zones`: the two boxes, the turn rule, the zone rule and their combination `Classify`.
- `Pipeline`: one iteration of the loop as functions on values.
  - `ProcessFrame` covers `process_frame` with its no-hand and exception paths.
  - `Debounce` is the majority and timing gate. `Step` is the two together.
  - `Run` is the loop over a sequence of iterations.
  - Lemmas about whole runs: the validity invariant, the gate respected by every
    attempt, and a five-frame scenario.
- `Tracker`: `GestureParams` as a class whose buffers and last-command fields are
  updated in place. Each of its methods is proved equal to the corresponding
  `Pipeline` function.

Inputs the model takes as given:

- The angle `math.degrees(math.atan2(...))` is an input in [-180, 180].
- Pixel positions are integer inputs.
- Time is an integer number of microseconds, the resolution of `datetime`. The
  cooldown of 0.05 s is exactly 50 000 µs.
- The outcome of the HTTP request is a boolean input.
- A frame is one of four kinds:
  - no hand;
  - a hand, with its angle and the two reference pixels;
  - an exception raised before the angle is appended;
  - an exception raised after it (while drawing the text overlays).

Two consequences of the code as written:

- **Weight order.** `np.average` pairs the weights with `list(angle_buffer)` in
  buffer order, oldest first, so the oldest sample weighs 0.5 and the newest 0.2,
  although the comment on line 162 speaks of more weight to recent angles. The
  history [10, 25, 40] (40 the newest) smooths to 20.5
  (`Angles.SmoothOldestFirstExample`).
- **A turn after a run of Forward frames.** For the frame commands Stop, Forward,
  Forward, Forward, Left, Left never wins the vote of the command deque, so only
  Forward is sent (`Pipeline.FiveFrameScenario`). The lemma takes the second frame
  within the cooldown, so its result does not depend on how the tie [Stop, Forward]
  is broken.

## Model

| member | source | states |
|---|---|---|
| Buffers.Window | Handtracker/handtracker.py:46-47 | a deque of at most 3 items holds the last min(n, 3) items of a history of n appends, in order |
| Buffers.Fill | Handtracker/handtracker.py:161 | the deque after appending each item of a history in turn to an empty one: at most 3 items, the newest appended item last |
| Buffers.Push | Handtracker/handtracker.py:46-47 | appending to a deque of at most 3 items: the length grows by one up to 3, the new item is last, and the items before it are the newest ones already held, in order |
| Buffers.PushIsWindow | Handtracker/handtracker.py:46-47 | an append leaves exactly the last three items of the extended history |
| Buffers.PushFull | Handtracker/handtracker.py:46-47 | appending to a full deque drops the oldest item and keeps the other two in order, with the new item last |
| Buffers.PushNotFull | Handtracker/handtracker.py:46-47 | appending to a deque that is not full only appends |
| Buffers.FillIsWindow | Handtracker/handtracker.py:161 | after any sequence of appends to an empty deque, it holds exactly the three most recent items, oldest first |
| Angles.Fold | Handtracker/handtracker.py:155-158 | the single ±360 correction changes the value by 0, +360 or -360; it brings any value in (-540, 540] into (-180, 180], and leaves a value already there unchanged |
| Angles.FoldUnique | Handtracker/handtracker.py:155-158 | the folded angle is the only value in (-180, 180] that differs from the raw value by 0 or ±360 |
| Angles.Orientation | Handtracker/handtracker.py:153-158 | the orientation of any atan2 angle lies in (-180, 180] and is the angle minus 90, possibly plus 360 |
| Angles.SmoothClosedForm | Handtracker/handtracker.py:162-163 | the weighted average for one, two and three samples: one sample is returned as is, two are weighed 0.5 : 0.3 and three 0.5 : 0.3 : 0.2, oldest first |
| Angles.Smooth | Handtracker/handtracker.py:161-163 | `np.average` of the deque with the weights truncated to its length, paired oldest first: the result lies between the smallest and the largest sample |
| Angles.SmoothInRange | Handtracker/handtracker.py:161-163 | a history of normalised angles smooths to a normalised angle |
| Angles.SmoothOldestFirstExample | Handtracker/handtracker.py:162-163 | the history [10, 25, 40] smooths to 20.5, because the oldest sample carries the largest weight |
| Commands.Code | Handtracker/handtracker.py:169-194 | Forward is sent as f, Backward as b, Left as l, Right as r and Stop as s, each letter naming exactly one command |
| Commands.CodeInjective | Handtracker/handtracker.py:169-194 | distinct commands have distinct letters |
| Commands.Count | Handtracker/handtracker.py:226-227 | `buf.count(c)` is at most the length and is positive exactly when `c` occurs |
| Commands.CountPair | Handtracker/handtracker.py:226-227 | two different commands together occur at most as often as the buffer is long |
| Commands.Leader | Handtracker/handtracker.py:226-227 | the scan returns the starting candidate or a scanned command, with a count at least that of the candidate and of every scanned command |
| Commands.MostCommon | Handtracker/handtracker.py:226-227 | the majority is an element of the buffer and no command occurs more often |
| Commands.StrictLeaderChosen | Handtracker/handtracker.py:226-227 | a command occurring strictly more often than every other one is chosen |
| Commands.TwoOfThreeWins | Handtracker/handtracker.py:226-227 | in a full deque of 3, a command present at least twice is chosen |
| Zones.BoxCorners | Handtracker/handtracker.py:33-42 | the boxes are (540, 0)-(740, 200) and (540, 520)-(740, 720) |
| Zones.BoxesDisjoint | Handtracker/handtracker.py:36-42 | no point lies strictly inside both boxes |
| Zones.Inside | Handtracker/handtracker.py:183-192 | the strict comparison chains: a point on any edge of a box is not inside it |
| Zones.BothInside | Handtracker/handtracker.py:183-192 | both landmarks inside the box; if either landmark has an x coordinate on the left or right edge, or a y coordinate on the top or bottom edge, the test fails |
| Zones.Turn | Handtracker/handtracker.py:169-179 | a turn exactly when the angle is above 20 or below -20: Right for a positive angle, Left for a negative one |
| Zones.Zone | Handtracker/handtracker.py:181-194 | Forward iff both points are strictly inside the top box, Backward iff both are strictly inside the bottom box, otherwise Stop |
| Zones.Classify | Handtracker/handtracker.py:169-194 | the frame command: Right above 20 degrees and Left below -20, and a turn only then; Forward or Backward iff the angle is within the deadzone and both points are inside the matching box |
| Zones.TurnIgnoresZones | Handtracker/handtracker.py:181-182 | while turning, the landmark positions do not affect the command |
| Zones.DeadzoneIgnoresAngle | Handtracker/handtracker.py:169-179 | within the deadzone, the exact angle does not affect the command |
| Zones.OutsidePointStops | Handtracker/handtracker.py:183-194 | with no turn, one point outside both boxes or on an edge gives Stop |
| Zones.SplitPointsStop | Handtracker/handtracker.py:183-194 | with no turn, one point in each box gives Stop |
| Pipeline.Initial | Handtracker/handtracker.py:44-51 | a new `GestureParams` has empty deques, last command Stop, and the creation time, and is valid |
| Pipeline.PushInRange | Handtracker/handtracker.py:153-161 | appending a normalised angle keeps every stored angle normalised |
| Pipeline.ProcessFrame | Handtracker/handtracker.py:98-208 | per frame kind: no hand gives (Stop, 160) with the angles unchanged; an exception gives (Stop, 0), with the angle appended only if it was raised after the append; a hand appends its orientation and gives the classification of the new smoothed angle with speed 160; the deque keeps at most 3 normalised angles |
| Pipeline.HandFrameCommand | Handtracker/handtracker.py:152-194 | for a hand, the smoothed angle is normalised; above 20 gives Right, below -20 gives Left, and Forward iff within the deadzone with both points in the top box |
| Pipeline.Debounce | Handtracker/handtracker.py:224-237 | the command is pushed; a send of (majority, speed) is attempted iff the majority differs from the last command and the cooldown has elapsed; last command and time become the majority and now iff the attempt succeeds, and are otherwise unchanged |
| Pipeline.Step | Handtracker/handtracker.py:215-237 | one loop iteration keeps both deques within 3 items and every stored angle normalised |
| Pipeline.NoHandStep | Handtracker/handtracker.py:105-120 | a frame without a hand leaves the angles alone, still pushes Stop, and any attempt carries speed 160 |
| Pipeline.FaultStep | Handtracker/handtracker.py:204-208 | a frame that raised pushes Stop, and any attempt carries speed 0 |
| Pipeline.FailedSendRetried | Handtracker/handtracker.py:233-237 | after a failed send, a later frame with the same majority attempts the send again |
| Pipeline.DebounceExample | Handtracker/handtracker.py:225-237 | the deque [Stop, Stop, Forward] receiving Forward becomes [Stop, Forward, Forward] and sends Forward iff the cooldown has passed |
| Pipeline.ScenarioVotes | Handtracker/handtracker.py:226-227 | the majorities of the deques of the five-frame scenario that hold whatever the tie-break |
| Pipeline.Run | Handtracker/handtracker.py:215-237 | the `while cap.isOpened()` loop over a sequence of iterations, with the state carried from one to the next; it makes at most one request per iteration |
| Pipeline.RunWithSnoc | Handtracker/handtracker.py:215-237 | running the loop over a history and then one more iteration is running it over the extended history |
| Pipeline.RunKeepsValid | Handtracker/handtracker.py:215-237 | any run from a valid state ends in a valid state |
| Pipeline.RunRespectsGate | Handtracker/handtracker.py:229-237 | in every run, each attempt names a command other than the last successful one before it and comes at least 50 ms after that success; the final last command and time are those of the last successful attempt |
| Pipeline.FiveFrameScenario | Handtracker/handtracker.py:215-237 | no hand, then three frames in the top box (the first of them within the cooldown of the start, the second after it), then a frame turned to -110 degrees: exactly one request is made, Forward at speed 160, at the third frame |
| Tracker.GestureParams.constructor | Handtracker/handtracker.py:44-51 | the fields start as `Pipeline.Initial` and are valid |
| Tracker.GestureParams.ProcessFrame | Handtracker/handtracker.py:98-208 | updates the angle deque in place and returns the frame's command and speed, as `Pipeline.ProcessFrame` |
| Tracker.GestureParams.Debounce | Handtracker/handtracker.py:224-237 | updates the command deque and the last-command fields in place and returns the attempt, as `Pipeline.Debounce` |
| Tracker.GestureParams.Step | Handtracker/handtracker.py:221-237 | one loop iteration in place, as `Pipeline.Step` |
| Tracker.GestureParams.Loop | Handtracker/handtracker.py:215-237 | the loop over a sequence of iterations ends in the state of `Pipeline.Run` and returns its attempts, which respect the gate |

## Left out

- Capture, flipping, colour conversion, the hand detector, drawing, `imshow` and
  `waitKey` (lines 14-30, 102-130, 148-150, 166-167, 197-202, 216-221, 239-242).
  They are I/O and UI around a black-box detector. Which frames are produced, and
  whether one raises, is an input.
- `math.atan2`, `math.degrees` and the `int(landmark.x * width)` truncation
  (lines 135-136, 153-154). These are floating-point library calls, so the angle in
  degrees and the integer pixel positions are inputs.
- Floating-point rounding. Angles and weights are exact reals.
- `calculate_finger_positions` (lines 58-80): its result is never used.
- `sendToRobot` (lines 82-96): an HTTP request. Its boolean outcome is an input.
- The stop sent at shutdown (line 250): an HTTP request after the loop ends.
- `datetime.now()`: the current time is an input, in microseconds.
- The loop's exits on a failed capture or the `q` key (lines 217-219, 241-242).
  The loop is modelled over a finite sequence of iterations.
- The exception handler around the whole loop (lines 244-245): it can only be
  reached through the I/O calls above.
- The `min_detection_confidence` and `min_tracking_confidence` fields (lines 53-54):
  they are stored and never read.
- The on-screen `label` strings: display only.
- `keyboard_cam/app.py` is not part of this model. It forwards form fields to an
  HTTP endpoint.
- Commands.MostCommon: on a tie, Python's choice depends on the iteration order of
  a set, which the code does not fix. The model breaks ties towards the command met
  first in the deque and proves only that the choice has a maximal count (and,
  through `StrictLeaderChosen` and `TwoOfThreeWins`, that a strict majority wins).
  No lemma states which command wins a tie.
