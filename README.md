# gamehand — a Dafny model of the gesture-to-gamepad mapping

gamehand turns the hands a camera sees into the inputs of a virtual game
controller. Each camera frame is split into a left and a right half. In
each half the first hand found gives one joystick and one button:

- the position of the palm centre, measured from the centre of the half
  frame, drives the joystick;
- an open or a closed hand drives a trigger or button.

The two hand states go to a Linux backend (uinput events) or a Windows
backend (an emulated Xbox 360 pad). Key `p` pauses and resumes the
mapping, and key `q` ends the session.

The project models that core in five modules, one per concern:

| module | file | what it holds |
|---|---|---|
| `Helpers` | `helpers.dfy` | distance, midpoint and linear remap (`helpers.py`); Python's `int()` on reals |
| `HandOpenness` | `hand_openness.dfy` | `check_is_hand_open`: the nested fingertip-pair loops, as a method proved against a specification function |
| `JoystickInput` | `joystick_input.dfy` | `linear_scaling_joystick` and `get_input_from_frame`: calibration window, clamping, truncation, the no-hand state |
| `ControllerBackend` | `controller_backend.dfy` | the two backends as a virtual device that records its calls, plus what a pad displays or sends after them |
| `SessionLoop` | `session_loop.dfy` | the `while True` loop over a finite stream of rounds, with its pause/quit state machine |

Inputs the program gets from outside become parameters:

- **Square root.** `math.sqrt` is a parameter `sqrt: real -> real`. The model only assumes that it returns non-negative values on non-negative input (`NonNegativeRoot`).
- **Detector.** The MediaPipe detector is replaced by the detections it returns. A detected hand is a sequence of landmarks, each carrying its normalised position and its pixel position.
- **Camera and keyboard.** One round of the loop is given as the detections in each half plus the key code `cv2.waitKey` returned.
- **Platform.** The platform string is the datatype `Platform`.

Python floats are modelled as exact reals. `int()` is truncation toward zero (`Trunc`). Python's floor division `-frame_w//5` is written out as `-(dim as int) / 5`, because Dafny's division by a positive integer is also a floor.

Three behaviours of the code shape the model:

- The calibration window is `[-frame_w//5, frame_w//5]` of the half frame, so a 640-pixel camera (320-pixel half frames) gives a window of ±64 on x. When 5 does not divide the side, the window is lopsided: `-frame_w//5` floors away from zero, so it is `-ceil(w/5)` to `floor(w/5)`.
- On a half frame whose sides are multiples of 5 (as with a 640x480 camera), a centred hand on Linux gives `int(127.5) = 127`, while the no-hand state is 128 (`CentredHand`). On other sides the lopsided window moves the centre value.
- Key `q` breaks out of the loop in the round it is read. The pause toggle on `p` is checked first, in the same round. Either way no emit call follows a `q`.

## Model

| member | source | states |
|---|---|---|
| Helpers.Trunc | hand_gamepad.py:162-163 | `int()` of a float: for non-negative r the result is the largest integer not above r; for negative r, the smallest integer not below r |
| Helpers.TruncWithin | hand_gamepad.py:162-163 | truncating a value inside integer bounds stays inside them |
| Helpers.Distance | helpers.py:4-5 | the Euclidean distance is never negative |
| Helpers.DistanceSymmetric | helpers.py:4-5 | the distance from p1 to p2 equals the distance from p2 to p1 |
| Helpers.AxisMiddle | helpers.py:12-16 | the truncated midpoint of two coordinates lies between them |
| Helpers.MiddlePoint | helpers.py:9-18 | each coordinate of the midpoint lies between the two points' coordinates |
| Helpers.MiddlePointSymmetric | helpers.py:9-18 | swapping the two points gives the same midpoint, despite the branch on which is larger |
| Helpers.MiddlePointSelf | helpers.py:9-18 | the midpoint of a point with itself is that point |
| Helpers.AxisMiddleNonNegative | helpers.py:12-16 | for non-negative pixel coordinates the midpoint is the smaller one plus half the gap, rounded down |
| Helpers.MiddlePointNonNegative | helpers.py:9-18 | the same on both axes of two pixel positions |
| Helpers.ScalingMapsEndPoints | helpers.py:21-22 | the remap sends minA to minB and maxA to maxB |
| Helpers.ScalingCentre | helpers.py:21-22 | on a symmetric window the centre 0 goes to the middle of the target range |
| Helpers.ScalingMonotone | helpers.py:21-22 | on a proper window with a proper target range the remap never reverses order |
| HandOpenness.NormPoints | hand_gamepad.py:54 | one normalised position per landmark, in order |
| HandOpenness.AllPairsCount | hand_gamepad.py:60-64 | for n tips the nested loops collect n(n-1)/2 distances |
| HandOpenness.PairCount | hand_gamepad.py:60-64 | after i outer rounds, i(2n-i-1)/2 distances have been collected |
| HandOpenness.TipDistancesArePairs | hand_gamepad.py:57-64 | the collected list is exactly the six fingertip pairs (8,12), (8,16), (8,20), (12,16), (12,20), (16,20), in that order |
| HandOpenness.TipDistancesCount | hand_gamepad.py:57-67 | six distances, so the average never divides by zero |
| HandOpenness.SumMonotone | hand_gamepad.py:67 | a sum does not decrease when each term grows |
| HandOpenness.HandIsOpenIff | hand_gamepad.py:57-69 | a hand is open iff the mean of its six fingertip distances is greater than 0.1 |
| HandOpenness.OpennessMonotone | hand_gamepad.py:60-69 | a hand whose fingertip gaps are all at least as wide as those of an open hand is open too |
| HandOpenness.CheckIsHandOpen | hand_gamepad.py:52-69 | the nested loops, the append and the average return exactly `HandIsOpen` |
| JoystickInput.NeutralAxis | hand_gamepad.py:182-184 | the no-hand axis value (128 on Linux, 0 elsewhere) is inside the axis range |
| JoystickInput.FrameCentre | hand_gamepad.py:125-126 | the frame centre `(w//2, h//2)` lies inside the frame |
| JoystickInput.ClampToAxis | hand_gamepad.py:73-83 | the result is in [minB, maxB], unchanged inside it, maxB above and minB below; with minB above maxB the second test wins and it is minB |
| JoystickInput.LinearScalingJoystick | hand_gamepad.py:73-83 | the remapped value with the two caps applied in the code's order |
| JoystickInput.CalibrationWindowProper | hand_gamepad.py:159-163 | for any positive side w the window `[-w//5, w//5]` is proper: its lower end is negative and its upper end is not |
| JoystickInput.AxisValue | hand_gamepad.py:156-163 | one joystick component is within the platform's axis range, and saturates at the top (bottom) end once the offset reaches the window's upper (lower) end |
| JoystickInput.ScaledAxis | hand_gamepad.py:156-163 | the method computing one component returns `AxisValue` |
| JoystickInput.FrameInputInRange | hand_gamepad.py:119-192 | both components of every half-frame result are in the axis range |
| JoystickInput.FirstHandOnly | hand_gamepad.py:130-131 | only the first detected hand counts: any further hands leave the result unchanged |
| JoystickInput.NoHandIsNeutral | hand_gamepad.py:182-192 | with no hand the state is open and centred: 128/128 on Linux, 0/0 elsewhere |
| JoystickInput.CentredHand | hand_gamepad.py:156-163 | on a half frame whose sides are multiples of 5 (as with a 640x480 camera), a hand exactly at the centre gives 127 on Linux, which differs from the no-hand 128, and 0 elsewhere |
| JoystickInput.AxisAtCentre | hand_gamepad.py:156-163 | offset 0 on a side divisible by 5 gives 127 on Linux and 0 elsewhere |
| JoystickInput.SaturatedScenario | hand_gamepad.py:156-163 | a 320x480 half frame with the palm centre at (300, 240), beyond the ±64 window on x, gives (32767, 0) on Windows |
| JoystickInput.GetInputFromFrame | hand_gamepad.py:119-192 | the no-hand state with no hand, otherwise the first hand's openness and both truncated components; always in range |
| JoystickInput.ReadHand | hand_gamepad.py:131-180 | the body of the loop over the hands returns `HandInput` of the hand: `CheckIsHandOpen`, then the palm centre from landmarks 9 and 0, then both components |
| JoystickInput.EnumerateLandmarks | hand_gamepad.py:138-140 | the list has one entry per landmark, entry k being (k, landmark k) |
| ControllerBackend.LinuxMapping | hand_gamepad.py:86-95 | after the Linux calls the pad shows both sticks unchanged and each button at 1 exactly when that hand is closed |
| ControllerBackend.LinuxEventOrder | hand_gamepad.py:86-95 | exactly six calls, all emits, in the order ABS_X, ABS_Y, BTN_Z, ABS_RX, ABS_RY, BTN_TL |
| ControllerBackend.WindowsMapping | hand_gamepad.py:98-111 | after the Windows calls the sent report holds each trigger at 255 exactly when that hand is closed (else 0), each x unchanged and each y negated |
| ControllerBackend.WindowsSingleUpdate | hand_gamepad.py:98-111 | the only `update` is the last call, and nothing is sent before it |
| ControllerBackend.WindowsValuesInRange | hand_gamepad.py:109-110 | in-range inputs give stick values in [-32767, 32767] and trigger values 0 or 255 |
| ControllerBackend.BackendsAgree | hand_gamepad.py:86-111 | both backends agree: a closed hand pulls the trigger or presses the button, x matches, and y matches up to its sign |
| ControllerBackend.SetControllerInputLinux | hand_gamepad.py:86-95 | the device log grows by exactly the six Linux emits |
| ControllerBackend.SetControllerInputWindows | hand_gamepad.py:98-111 | the device log grows by exactly the Windows calls |
| ControllerBackend.SetControllerInput | hand_gamepad.py:113-117 | dispatch per platform; on any other platform nothing is called |
| SessionLoop.InitiallyRunning | hand_gamepad.py:197 | the loop starts unpaused |
| SessionLoop.KeyTransitions | hand_gamepad.py:218-222 | `p` toggles the pause and continues; `q` stops, paused or not; any other key changes nothing |
| SessionLoop.PausedRoundSilent | hand_gamepad.py:205-213 | a paused round makes no device call |
| SessionLoop.RunningRoundEmitsOnce | hand_gamepad.py:205-218 | a running round makes one emit call with its own two hand states, before the key is read |
| SessionLoop.QuitStops | hand_gamepad.py:221-222 | a `q` ends the loop in the round it is read, leaving the pause flag as it is |
| SessionLoop.PauseFreezes | hand_gamepad.py:205-220 | while paused and no `p` or `q` arrives, any number of rounds makes no device call and keeps the state, so the device keeps its last values |
| SessionLoop.ResumeEmits | hand_gamepad.py:205-220 | after a `p` that resumes, the next round emits that round's hand states |
| SessionLoop.PlayRound | hand_gamepad.py:199-222 | one pass of the loop body logs exactly the round's calls and returns the key transition |
| SessionLoop.RunSession | hand_gamepad.py:195-222 | the loop's round count, final pause flag and device log are those of the specification `Run` |

## Left out

- Camera capture, the mirror flip, pixel projection, drawing, `imshow` and the windows: the model starts from the detections in each half frame. The pixel position of each landmark is given, not computed from `lm.x * frame_w`.
- The MediaPipe detector: its output is a parameter. A detected hand must have at least 21 landmarks, because the code reads index 20 and would fail otherwise.
- `math.sqrt` is a parameter whose only assumed property is non-negativity. The model has no exact Euclidean length.
- Floating point: floats are exact reals, so rounding of the average or of the remap is not modelled.
- Creation of the uinput or vgamepad device, the Linux device's capability list and its initial `BTN_A` emit at start-up: the device is an object that records its calls.
- `print` calls and the commented-out debug output.
- The `for` loop over the detected hands returns in its first round, so it is modelled as a test on the first hand.
- The endless `while True` loop is modelled as a finite stream of rounds. Frames keep coming until a `q` or until the stream ends.
- SessionLoop.RunSession: does not model the `NameError` that the call at line 213 raises on a platform other than Linux or Windows, because `device` is never bound there. The method requires a known platform instead. It also requires a camera whose half frames have at least one pixel in width and height, in every round whether or not a hand is detected. The program itself fails only when a hand is reported in an empty half frame (division by zero in `linear_scaling`), and a camera frame narrower than two pixels is not a case the loop is written for.
- JoystickInput.GetInputFromFrame: a detected hand in a half frame with no pixels in width or height would make `linear_scaling` divide by zero. The method requires both sides to be positive whenever a hand is detected.
- The default arguments of `linear_scaling` and `linear_scaling_joystick` (-500, 500, 0, 255) are never used by the program, so they are not modelled.
