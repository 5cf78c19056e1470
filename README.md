# Ball-tracking camera controller — Dafny model

This project models the core of `camera_controller.py`, a controller that
steers a pan-tilt-zoom webcam (an OBSBOT camera driven over OSC) so that it
follows the ball reported by SSL-Vision. Each tick the controller:

- receives one vision frame;
- picks the most confident ball;
- acts only when that confidence is strictly above 0.5;
- maps the ball's field position to pan/tilt angles and a zoom level;
- sends a `SetGimMotorDegree` and a `SetZoom` message.

When the operator stops it, it sends `Disconnected`. A second run mode is a
calibration console: typed commands scale the pan and tilt response by 1.1 or
0.9, save the configuration, or leave the mode.

Layout, one module per component:

- `config.dfy` (`Config`): the `CameraConfig` record, its default values and
  the `Computable` / `WellFormed` predicates.
- `numeric.dfy` (`Numeric`): Python's `max(lo, min(hi, v))` clamp and `int()`
  truncation toward zero.
- `mapping.dfy` (`Mapping`): `calculate_camera_angles` and `calculate_zoom`,
  with their bounds, boundary values, linearity and monotonicity.
- `vision.dfy` (`Vision`): ball selection (`max` with a confidence key), the
  receive step and the confidence gate.
- `osc.dfy` (`Osc`): the OSC messages, with their addresses and arguments.
- `tracking.dfy` (`Tracking`): one tick, the log of a whole run and its
  properties.
- `calibration.dfy` (`Calibration`): command parsing, the calibration state
  machine and its properties.
- `controller.dfy` (`Controller`): the `BallTrackingCamera` class. Its fields
  are the configuration, the log of sent messages and the saved snapshots.
  `Run` and `CalibrationMode` are loops proved against the specification
  functions above.

All arithmetic is over exact reals. `math.sqrt` is a parameter `sqrt` of the
zoom computation and of `Run`. Lemmas that need the true distance take the
root at the point they use as a precondition.

Two points about the configuration and the zoom:

- The code clamps the interpolated zoom and then truncates it
  (`camera_controller.py:93`). With integer bounds this equals truncating
  first (`Numeric.TruncClampCommute`).
- Sent messages are kept as a datatype, not as raw OSC packets. The camera
  application sees only an address and an argument list, so
  `Osc.AddressesDistinguishKinds` and `Osc.WireFormatInjective` show that
  this datatype loses nothing: two different modelled messages go out
  differently on the wire.
- The code never validates a configuration. `WellFormed` states the invariant
  a sensible configuration satisfies. It is not enforced, but the defaults
  satisfy it and calibration preserves it
  (`Calibration.CalibrationKeepsWellFormed`). The only precondition of the
  tracking loop is `Computable`: a non-zero field width and height.

## Model

| member | source | states |
|---|---|---|
| `Config.DefaultIsWellFormed` | camera_controller.py:11-24 | The default configuration (6000 x 4000 mm field, unit scales, zoom 0..100, distance band 1000..5000) has positive sizes and scales, an ordered zoom range and a proper distance band. |
| `Numeric.Clamp` | camera_controller.py:77 | `max(lo, min(hi, v))` lies in `[lo, hi]` when `lo <= hi`, is `v` when `v` is already in range, and is the nearer bound otherwise. |
| `Numeric.Trunc` | camera_controller.py:98 | Python `int()` on a float truncates toward zero: for `r >= 0` it is the largest integer not above `r`, for `r < 0` the smallest integer not below it. |
| `Numeric.TruncClampCommute` | camera_controller.py:93 | For integer bounds `lo <= hi`, `int(max(lo, min(hi, z)))` equals `max(lo, min(hi, int(z)))`: clamping before or after truncation gives the same zoom. |
| `Mapping.CameraAngles` | camera_controller.py:67-77 | Pan is always within [-129, 129] and tilt within [-59, 59], for any position and scale. An in-range raw angle `x/(width/2)*129*pan_scale` (and the tilt analogue) is returned unchanged. A raw angle beyond the travel gives exactly the bound. |
| `Mapping.PanAtFieldEdge` | camera_controller.py:70-77 | With `pan_scale = 1`, pan is exactly +129 at `x = width/2` and -129 at `x = -width/2`. |
| `Mapping.TiltAtFieldEdge` | camera_controller.py:71-77 | With `tilt_scale = 1`, tilt is exactly +59 at `y = height/2` and -59 at `y = -height/2`. |
| `Mapping.PanLinearInsideField` | camera_controller.py:70-77 | With unit scale and `|x| <= width/2`, pan equals `129 * x/(width/2)`: linear in x and never clamped. |
| `Mapping.PanMonotone` | camera_controller.py:70-77 | For a positive width and a non-negative scale, pan never decreases as x grows, clamping included. |
| `Mapping.ZoomForDistance` | camera_controller.py:83-93 | Distance at or below `min_distance` gives `max_zoom`. Distance at or above `max_distance` (and above `min_distance`) gives `min_zoom`. With `min_zoom <= max_zoom` the zoom always lies in `[min_zoom, max_zoom]`. |
| `Mapping.CalculateZoom` | camera_controller.py:79-93 | The zoom for a position is the zoom for `sqrt(x*x+y*y)` and stays within `[min_zoom, max_zoom]` whatever the square root returns. |
| `Mapping.LinearZoomMonotone` | camera_controller.py:89-92 | The interpolation formula is non-increasing in the distance when `min_zoom <= max_zoom`. |
| `Mapping.ZoomNonIncreasing` | camera_controller.py:83-93 | Zoom never increases as the distance grows, across all three branches, truncation included. |
| `Mapping.ZoomWithinOneStep` | camera_controller.py:88-93 | Inside the band, with `0 <= min_zoom <= max_zoom`, the zoom is the exact linear interpolation rounded down: `z <= linear < z + 1`. |
| `Mapping.DefaultZoomAtThreeMetres` | camera_controller.py:21-24 | With the defaults, distance 3000 gives zoom `100 - 100*2000/4000 = 50`. |
| `Mapping.ZoomFromPosition` | camera_controller.py:81-86 | Given the exact root, `x*x+y*y <= min_distance^2` gives `max_zoom`, and `x*x+y*y >= max_distance^2` gives `min_zoom`. |
| `Vision.BestIndex` | camera_controller.py:59 | The index `max(balls, key=confidence)` picks has a confidence at least every ball's, and every earlier ball is strictly less confident (first maximum wins ties). |
| `Vision.SelectBall` | camera_controller.py:57-61 | No ball for an empty list. Otherwise a member of the list whose confidence is maximal, preceded only by strictly less confident balls. |
| `Vision.FirstWinsTies` | camera_controller.py:59 | Any ball that is maximal and preceded only by less confident balls is the one selected: the selection is determined. |
| `Vision.ReceiveFrame` | camera_controller.py:50-65 | A failed receive or decode, or a frame without balls, yields nothing. Otherwise the first ball of the frame with maximal confidence (the ball `SelectBall` picks), its position and confidence unchanged. |
| `Vision.ShouldTrack` | camera_controller.py:154 | The strict confidence gate `confidence > 0.5`. Its properties are stated by `Vision.GateIsStrict` and `Tracking.TickMessages`. |
| `Vision.GateIsStrict` | camera_controller.py:154 | Confidence 0.5 and 0.0 are rejected; 0.5000001 and 1.0 are accepted. |
| `Osc.InitializeMessages` | camera_controller.py:40-47 | Start-up sends `Connected 1`, `SelectDevice 0` and `ResetGimbal 1`, in that order, to their OBSBOT addresses. |
| `Osc.MoveCamera` | camera_controller.py:95-99 | Exactly two messages: `SetGimMotorDegree [90, int(pan), int(tilt)]` (truncated toward zero), then `SetZoom zoom`. |
| `Osc.AddressesDistinguishKinds` | camera_controller.py:43-162 | Two messages with the same OSC address are of the same kind. |
| `Osc.WireFormatInjective` | camera_controller.py:95-99 | A message is determined by its address and its argument list. |
| `Tracking.Accepts` | camera_controller.py:151-154 | A receive attempt that yields a ball passing the gate. `Tracking.TickMessages` and `Tracking.TickShape` state what such a tick sends. |
| `Tracking.TickMessages` | camera_controller.py:151-157 | A tick sends something if and only if a detection is present with confidence strictly above 0.5. When it sends, it sends exactly a gimbal command followed by a zoom command. |
| `Tracking.AcceptedTickCommands` | camera_controller.py:153-157 | An accepted tick computes angles and zoom from the same raw `(x, y)` and sends `SetGimMotorDegree [90, int(pan), int(tilt)]` then `SetZoom zoom`. |
| `Tracking.TickInRange` | camera_controller.py:155-157 | Every message of one tick is a gimbal or zoom command within the travel and zoom range. |
| `Tracking.LogInRange` | camera_controller.py:150-158 | Over any run, every gimbal command has speed 90, pan in [-129, 129] and tilt in [-59, 59]. Every zoom lies in `[min_zoom, max_zoom]` when that range is ordered. |
| `Tracking.NoDisconnectWhileTracking` | camera_controller.py:160-162 | A run's ticks never send `Disconnected`. In the output of `Run` it appears exactly once, as the last message. |
| `Tracking.AppendPair` | camera_controller.py:97-99 | Appending a gimbal/zoom pair (or nothing) to an alternating log keeps it alternating. |
| `Tracking.TrackingLog` | camera_controller.py:150-158 | Everything the `run` loop sends over a sequence of receive attempts, one tick each, in order. Its properties are stated by `Tracking.LogInRange`, `Tracking.LogIsPairs` and `Tracking.NoDisconnectWhileTracking`. |
| `Tracking.TickShape` | camera_controller.py:151-157 | A tick sends a gimbal/zoom pair when it accepts a ball, and nothing otherwise. |
| `Tracking.LogLength` | camera_controller.py:150-158 | The log has two messages per accepted tick. |
| `Tracking.LogAlternates` | camera_controller.py:150-158 | The log has even length, with gimbal commands exactly at its even positions. |
| `Tracking.LogIsPairs` | camera_controller.py:150-158 | Over ticks that complete, the log has exactly two messages per accepted tick, with gimbal commands exactly at even positions. An interrupted `move_camera` is not modelled (see Left out). |
| `Tracking.BallAtTouchLine` | camera_controller.py:151-157 | With defaults, a 0.9-confidence ball at (3000, 0) sends `SetGimMotorDegree [90, 129, 0]` and `SetZoom 50`. |
| `Tracking.BallAtCentre` | camera_controller.py:151-157 | With defaults, a 0.6-confidence ball at (0, 0) sends `SetGimMotorDegree [90, 0, 0]` and `SetZoom 100`. |
| `Tracking.NothingSentWithoutConfidentBall` | camera_controller.py:151-154 | A ball with confidence at most 0.5, an empty frame or a failed receive sends nothing. |
| `Calibration.ParseCommand` | camera_controller.py:126-141 | A recognised command is the one whose word equals the lower-cased line. An unrecognised line matches no command word. |
| `Calibration.ParseKeyword` | camera_controller.py:127-138 | Typing a command's own word selects that command. |
| `Calibration.Lower` | camera_controller.py:126 | The `.lower()` applied to each input line. It folds ASCII letters only; see `Calibration.LowerFoldsCapitalsOnly`, `Calibration.LowerIdempotent` and the ASCII line under Left out. |
| `Calibration.LowerFoldsCapitalsOnly` | camera_controller.py:126 | Lower-casing keeps the length, leaves no capital letter and changes only capitals. |
| `Calibration.LowerIdempotent` | camera_controller.py:126 | Lower-casing twice is lower-casing once. |
| `Calibration.ParseIgnoresCase` | camera_controller.py:126 | A line and its lower-cased form select the same command. |
| `Calibration.Step` | camera_controller.py:127-141 | One command changes at most the two scales. `pan+`/`pan-` leave the tilt scale alone and `tilt+`/`tilt-` leave the pan scale alone. `save`, `exit` and unknown commands leave the configuration unchanged. `save` appends one snapshot. Only `exit` ends the session. |
| `Calibration.StepScale` | camera_controller.py:127-134 | `pan+`/`tilt+` multiply their scale by 1.1, `pan-`/`tilt-` by 0.9, and every other command leaves it unchanged. |
| `Calibration.Replay` | camera_controller.py:125-141 | The `calibration_mode` loop over a sequence of commands, stopping at the first `exit`. Its properties are stated by `Calibration.ExitsIffExitTyped`, `Calibration.ReplayUntilExit`, `Calibration.ScalesClosedForm` and `Calibration.OneSnapshotPerSave`. |
| `Calibration.ExitsIffExitTyped` | camera_controller.py:138-139 | The console loop ends by `exit` exactly when an `exit` was typed. |
| `Calibration.ReplayUntilExit` | camera_controller.py:125-141 | Commands after the first `exit` have no effect on the configuration or the saved snapshots. |
| `Calibration.OnlyScalesChange` | camera_controller.py:125-141 | A calibration session changes no field of the configuration except the two scales. |
| `Calibration.ReplayScale` | camera_controller.py:125-141 | Each scale after a session is the initial scale with the commands before `exit` applied one at a time. |
| `Calibration.ScaleAfterCounts` | camera_controller.py:127-134 | The resulting scale depends only on how many `+` and `-` commands the axis received, not on their order. |
| `Calibration.ScaledIsProduct` | camera_controller.py:128-134 | After `u` increases and `d` decreases the scale is `x * 1.1^u * 0.9^d`. |
| `Calibration.ScalesClosedForm` | camera_controller.py:125-141 | After a session each scale is the initial one times 1.1 per `+` and 0.9 per `-` typed before `exit`. |
| `Calibration.ScalesStayPositive` | camera_controller.py:128-134 | Positive scales stay positive under any sequence of commands. |
| `Calibration.CalibrationKeepsWellFormed` | camera_controller.py:125-141 | A session that starts from a well-formed configuration ends in one: calibration never breaks the configuration's invariant. |
| `Calibration.PanUpThenDown` | camera_controller.py:127-130 | `pan+` then `pan-` leaves `0.99 * pan_scale` (not the original value unless it was 0) and the tilt scale unchanged. |
| `Calibration.OneSnapshotPerSave` | camera_controller.py:135-137 | Each `save` before `exit` writes exactly one snapshot, after those already saved. |
| `Controller.BallTrackingCamera.constructor` | camera_controller.py:27-38 | A new controller holds the given configuration, has saved nothing and has sent exactly the three start-up messages. |
| `Controller.BallTrackingCamera.InitializeCamera` | camera_controller.py:40-48 | Appends the three start-up messages and changes nothing else. |
| `Controller.BallTrackingCamera.MoveCamera` | camera_controller.py:95-99 | Appends exactly the gimbal and zoom messages of `Osc.MoveCamera` and changes nothing else. |
| `Controller.BallTrackingCamera.SaveCalibration` | camera_controller.py:101-104 | Appends a snapshot of the current configuration and changes nothing else. |
| `Controller.BallTrackingCamera.TrackOnce` | camera_controller.py:151-157 | One pass of the `run` loop body: appends exactly that tick's messages and changes nothing else. |
| `Controller.BallTrackingCamera.Run` | camera_controller.py:146-162 | Leaves the configuration alone. It sends exactly the tracking log of the receive attempts (one tick each), followed by one `Disconnected`. |
| `Controller.BallTrackingCamera.CalibrationMode` | camera_controller.py:116-144 | The final configuration, saved snapshots and exit flag are those of the calibration state machine run over the parsed input lines. No OSC message is sent. |

## Left out

- UDP socket creation, binding and `recvfrom`, and protobuf decoding (`camera_controller.py:31-32, 52-55`): each receive attempt is a `Packet`, either the decoded balls or `Undecodable`. The catch-all `except` and its message (lines 63-65) become `Undecodable`.
- OSC client creation and transport (line 35): sent messages are appended to the `sent` log. Delivery is not modelled.
- `time.sleep(2)` after start-up and the `time.sleep(0.016)` tick cadence: timing cannot be stated over this model.
- `KeyboardInterrupt`: stopping is the end of the `packets` sequence, so the interrupt is taken to arrive between ticks. In the source it can also arrive inside `move_camera`, between the two sends (lines 97-99). Then a `SetGimMotorDegree` goes out without its `SetZoom`, followed by `Disconnected`. The model does not produce that output.
- `math.sqrt`: a function parameter. The zoom bounds hold for any value it returns. The boundary lemmas require the exact root at the point they use.
- IEEE floating point: all arithmetic is over exact reals. Values such as 0.99 after `pan+` then `pan-` are exact here and only approximate in Python floats. NaN and infinities are not modelled.
- `Controller.BallTrackingCamera.Run`: requires a non-zero field width and height. With a zero width or height the division at lines 70-71 fails on the first accepted tick, because only ticks that pass the gate at line 154 reach it. The source then raises `ZeroDivisionError`, which ends `run` without the `Disconnected` message. The requires also excludes zero-size runs that never accept a tick, which run normally in the source and send `Disconnected`. Neither of these runs is modelled.
- `save_calibration` writes JSON to `camera_config.json`. The model keeps the sequence of saved configurations, not the file format.
- `load_calibration` (lines 106-114) is not part of this model. Its `setattr` merge writes dynamically typed attributes from a JSON file, and a missing file only prints a message.
- `input()` prompts, all `print` output and the `.2f` formatting of the scales (lines 118-123, 137, 141-144).
- `Calibration.Lower`: lower-cases ASCII letters only, where Python's `str.lower()` folds all of Unicode.
- End of input in calibration mode: Python's `input()` raises `EOFError`, which the source does not catch. The model stops with `exited == false` instead.
- `main` and its `sys.argv` mode selection (lines 164-177).
