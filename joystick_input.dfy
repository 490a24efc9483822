/**
 * Joystick calibration and the per-half-frame hand state
 * (`linear_scaling_joystick` and `get_input_from_frame`, hand_gamepad.py):
 * the offset of the hand centre from the centre of the half frame is
 * remapped from the calibration window onto the backend's axis range,
 * clamped and truncated; a half frame without a hand yields the neutral
 * state.
 */
module JoystickInput {
  import opened Helpers
  import opened HandOpenness

  /** The value of `platform.system()` that the script branches on. */
  datatype Platform = Linux | Windows | OtherPlatform

  /** Axis range: [0, 255] for the uinput device, [-32767, 32767] otherwise. */
  function AxisMin(p: Platform): int { if p == Linux then 0 else -32767 }

  function AxisMax(p: Platform): int { if p == Linux then 255 else 32767 }

  /** The joystick value reported when no hand is detected. */
  function NeutralAxis(p: Platform): (v: int)
    ensures AxisMin(p) <= v <= AxisMax(p)
  {
    if p == Linux then 128 else 0
  }

  /** The half frame is divided by this to give the calibration window. */
  const Divider: int := 5

  const MiddleFingerKnuckleIndex: nat := 9
  const HandBottomIndex: nat := 0

  /** The width and height of one half of the camera frame. */
  datatype FrameHalf = FrameHalf(width: nat, height: nat)

  function FrameCentre(f: FrameHalf): (c: Point)
    ensures 0 <= c.x <= f.width && 0 <= c.y <= f.height
  {
    Point(f.width / 2, f.height / 2)
  }

  /** What the backends receive for one hand. */
  datatype InputData = InputData(isHandOpen: bool, joystickX: int, joystickY: int)

  /**
   * The two successive caps of `linear_scaling_joystick`: first at `hi`,
   * then at `lo`.
   */
  function ClampToAxis(v: real, lo: real, hi: real): (r: real)
    ensures lo <= hi ==> lo <= r <= hi
    ensures lo <= v <= hi ==> r == v
    ensures lo <= hi < v ==> r == hi
    ensures v < lo ==> r == lo
    ensures hi < lo ==> r == lo
  {
    var capped := if v > hi then hi else v;
    if capped < lo then lo else capped
  }

  /** `linear_scaling_joystick`: the remap, kept inside [minB, maxB]. */
  method LinearScalingJoystick(x: real, minA: real, maxA: real, minB: real, maxB: real) returns (newX: real)
    requires maxA != minA
    ensures newX == ClampToAxis(LinearScaling(x, minA, maxA, minB, maxB), minB, maxB)
  {
    newX := LinearScaling(x, minA, maxA, minB, maxB);
    if newX > maxB {
      newX := maxB;
    }
    if newX < minB {
      newX := minB;
    }
  }

  /**
   * Lower end of the calibration window: Python's `-frame_w//divider`
   * negates first and then floors, so this is -ceil(dim / 5). Dafny's
   * division by a positive number also floors.
   */
  function CalibrationMin(dim: nat): int { -(dim as int) / Divider }

  /** Upper end of the calibration window: `frame_w//divider`. */
  function CalibrationMax(dim: nat): int { dim / Divider }

  lemma CalibrationWindowProper(dim: nat)
    requires dim > 0
    ensures CalibrationMin(dim) < 0 <= CalibrationMax(dim)
  {
  }

  /**
   * One joystick component: `int(linear_scaling_joystick(offset, -dim//5,
   * dim//5, joystick_min, joystick_max))`. It always lies in the axis
   * range, and an offset at or beyond either end of the calibration window
   * saturates to that end of the range.
   */
  function AxisValue(offset: int, dim: nat, p: Platform): (v: int)
    requires dim > 0
    ensures AxisMin(p) <= v <= AxisMax(p)
    ensures CalibrationMax(dim) <= offset ==> v == AxisMax(p)
    ensures offset <= CalibrationMin(dim) ==> v == AxisMin(p)
  {
    var minA, maxA := CalibrationMin(dim) as real, CalibrationMax(dim) as real;
    var minB, maxB := AxisMin(p) as real, AxisMax(p) as real;
    var scaled := LinearScaling(offset as real, minA, maxA, minB, maxB);
    var clamped := ClampToAxis(scaled, minB, maxB);
    ScaledSaturates(offset, dim, p);
    TruncWithin(clamped, AxisMin(p), AxisMax(p));
    TruncOfInt(AxisMin(p));
    TruncOfInt(AxisMax(p));
    Trunc(clamped)
  }

  /** Beyond either end of the calibration window the remap overshoots the axis range. */
  lemma ScaledSaturates(offset: int, dim: nat, p: Platform)
    requires dim > 0
    ensures CalibrationMin(dim) < CalibrationMax(dim)
    ensures CalibrationMax(dim) <= offset ==>
      LinearScaling(offset as real, CalibrationMin(dim) as real, CalibrationMax(dim) as real, AxisMin(p) as real, AxisMax(p) as real) >= AxisMax(p) as real
    ensures offset <= CalibrationMin(dim) ==>
      LinearScaling(offset as real, CalibrationMin(dim) as real, CalibrationMax(dim) as real, AxisMin(p) as real, AxisMax(p) as real) <= AxisMin(p) as real
  {
    var minA, maxA := CalibrationMin(dim) as real, CalibrationMax(dim) as real;
    var minB, maxB := AxisMin(p) as real, AxisMax(p) as real;
    CalibrationWindowProper(dim);
    ScalingMapsEndPoints(minA, maxA, minB, maxB);
    if maxA <= offset as real {
      ScalingMonotone(maxA, offset as real, minA, maxA, minB, maxB);
    }
    if offset as real <= minA {
      ScalingMonotone(offset as real, minA, minA, maxA, minB, maxB);
    }
  }

  /**
   * What must hold for `get_input_from_frame` not to fail: when a hand is
   * detected it has all its landmarks, and the half frame has pixels
   * (on a zero side the window `[-0//5, 0//5]` is empty and
   * `linear_scaling` divides by zero; any positive side gives a proper one).
   */
  predicate Processable(frame: FrameHalf, hands: seq<DetectedHand>)
  {
    hands != [] ==> HasFingerTips(hands[0]) && frame.width > 0 && frame.height > 0
  }

  /** The palm centre: midpoint of the middle-finger knuckle and the wrist, in pixels. */
  function HandCentre(hand: DetectedHand): Point
    requires HasFingerTips(hand)
  {
    MiddlePoint(hand[MiddleFingerKnuckleIndex].pixel, hand[HandBottomIndex].pixel)
  }

  /** The state produced for a detected hand. */
  function HandInput(sqrt: real -> real, frame: FrameHalf, hand: DetectedHand, p: Platform): InputData
    requires NonNegativeRoot(sqrt) && HasFingerTips(hand)
    requires frame.width > 0 && frame.height > 0
  {
    var centre, frameCentre := HandCentre(hand), FrameCentre(frame);
    InputData(HandIsOpen(sqrt, hand),
              AxisValue(centre.x - frameCentre.x, frame.width, p),
              AxisValue(centre.y - frameCentre.y, frame.height, p))
  }

  /** The state produced when no hand is detected: open, joystick centred. */
  function NeutralInput(p: Platform): InputData
  {
    InputData(true, NeutralAxis(p), NeutralAxis(p))
  }

  /** The state `get_input_from_frame` produces for a half frame. */
  function FrameInput(sqrt: real -> real, frame: FrameHalf, hands: seq<DetectedHand>, p: Platform): InputData
    requires NonNegativeRoot(sqrt) && Processable(frame, hands)
  {
    if hands == [] then NeutralInput(p) else HandInput(sqrt, frame, hands[0], p)
  }

  /** Both joystick components are always inside the axis range. */
  predicate InAxisRange(input: InputData, p: Platform)
  {
    AxisMin(p) <= input.joystickX <= AxisMax(p) && AxisMin(p) <= input.joystickY <= AxisMax(p)
  }

  lemma FrameInputInRange(sqrt: real -> real, frame: FrameHalf, hands: seq<DetectedHand>, p: Platform)
    requires NonNegativeRoot(sqrt) && Processable(frame, hands)
    ensures InAxisRange(FrameInput(sqrt, frame, hands, p), p)
  {
  }

  /** Only the first detected hand matters: the others never change the result. */
  lemma FirstHandOnly(sqrt: real -> real, frame: FrameHalf, hand: DetectedHand,
                      others1: seq<DetectedHand>, others2: seq<DetectedHand>, p: Platform)
    requires NonNegativeRoot(sqrt) && Processable(frame, [hand])
    ensures Processable(frame, [hand] + others1) && Processable(frame, [hand] + others2)
    ensures FrameInput(sqrt, frame, [hand] + others1, p) == FrameInput(sqrt, frame, [hand] + others2, p)
    ensures FrameInput(sqrt, frame, [hand] + others1, p) == HandInput(sqrt, frame, hand, p)
  {
  }

  /** With no hand: open, and joystick at 128/128 on Linux, 0/0 elsewhere. */
  lemma NoHandIsNeutral(sqrt: real -> real, frame: FrameHalf, p: Platform)
    requires NonNegativeRoot(sqrt)
    ensures FrameInput(sqrt, frame, [], p).isHandOpen
    ensures p == Linux ==> FrameInput(sqrt, frame, [], p) == InputData(true, 128, 128)
    ensures p != Linux ==> FrameInput(sqrt, frame, [], p) == InputData(true, 0, 0)
  {
  }

  /**
   * A hand exactly at the centre of a half frame whose sides are multiples
   * of five gives 127 on Linux (`int(127.5)`), not the 128 of the no-hand
   * state, and 0 elsewhere.
   */
  lemma CentredHand(sqrt: real -> real, frame: FrameHalf, hand: DetectedHand, p: Platform)
    requires NonNegativeRoot(sqrt) && HasFingerTips(hand)
    requires frame.width > 0 && frame.height > 0
    requires frame.width % Divider == 0 && frame.height % Divider == 0
    requires HandCentre(hand) == FrameCentre(frame)
    ensures p == Linux ==> HandInput(sqrt, frame, hand, p).joystickX == 127 != NeutralAxis(p)
    ensures p == Linux ==> HandInput(sqrt, frame, hand, p).joystickY == 127
    ensures p != Linux ==> HandInput(sqrt, frame, hand, p).joystickX == 0 == HandInput(sqrt, frame, hand, p).joystickY
  {
    AxisAtCentre(frame.width, p);
    AxisAtCentre(frame.height, p);
  }

  lemma AxisAtCentre(dim: nat, p: Platform)
    requires dim > 0 && dim % Divider == 0
    ensures AxisValue(0, dim, p) == if p == Linux then 127 else 0
  {
    var w := CalibrationMax(dim) as real;
    assert CalibrationMin(dim) == -CalibrationMax(dim);
    ScalingCentre(w, AxisMin(p) as real, AxisMax(p) as real);
  }

  /**
   * A 640x480 camera gives 320x480 half frames with the window [-64, 64]
   * on x; a palm centre at (300, 240), inside the half frame, 140 pixels
   * right of its centre and level with it, drives a +/-32767 joystick to
   * (32767, 0).
   */
  lemma SaturatedScenario(sqrt: real -> real, hand: DetectedHand)
    requires NonNegativeRoot(sqrt) && HasFingerTips(hand)
    requires HandCentre(hand) == Point(300, 240)
    ensures HandInput(sqrt, FrameHalf(320, 480), hand, Windows).joystickX == 32767
    ensures HandInput(sqrt, FrameHalf(320, 480), hand, Windows).joystickY == 0
  {
    AxisAtCentre(480, Windows);
  }

  /**
   * `get_input_from_frame`: classify and locate the first detected hand
   * (the loop over the detected hands returns in its first round), or
   * report the neutral state when there is none.
   */
  method GetInputFromFrame(sqrt: real -> real, frame: FrameHalf, hands: seq<DetectedHand>, p: Platform)
    returns (input: InputData)
    requires NonNegativeRoot(sqrt) && Processable(frame, hands)
    ensures hands == [] ==> input == NeutralInput(p)
    ensures hands != [] ==> input == HandInput(sqrt, frame, hands[0], p)
    ensures InAxisRange(input, p)
  {
    var frameCentre := FrameCentre(frame);
    if hands != [] {
      input := ReadHand(sqrt, frame, frameCentre, hands[0], p);
    } else {
      var joystickX := if p == Linux then 128 else 0;
      var joystickY := if p == Linux then 128 else 0;
      input := InputData(true, joystickX, joystickY);
    }
  }

  /**
   * The body of the loop over the detected hands, for the first hand:
   * openness, the palm centre from the enumerated landmark list, and the
   * two joystick components relative to the frame centre.
   */
  method ReadHand(sqrt: real -> real, frame: FrameHalf, frameCentre: Point, hand: DetectedHand, p: Platform)
    returns (input: InputData)
    requires NonNegativeRoot(sqrt) && HasFingerTips(hand) && frame.width > 0 && frame.height > 0
    requires frameCentre == FrameCentre(frame)
    ensures input == HandInput(sqrt, frame, hand, p)
  {
    var isHandOpen := CheckIsHandOpen(sqrt, hand);

    var landmarkList := EnumerateLandmarks(hand);
    var knuckle := landmarkList[MiddleFingerKnuckleIndex].1.pixel;
    var bottom := landmarkList[HandBottomIndex].1.pixel;
    var handCentre := MiddlePoint(knuckle, bottom);
    assert handCentre == HandCentre(hand);

    var joystickMax := if p == Linux then 255 else 32767;
    var joystickMin := if p == Linux then 0 else -32767;
    var x := ScaledAxis(handCentre.x - frameCentre.x, frame.width, joystickMin, joystickMax, p);
    var y := ScaledAxis(handCentre.y - frameCentre.y, frame.height, joystickMin, joystickMax, p);
    input := InputData(isHandOpen, x, y);
  }

  /** `hand_landmarks_list`: each landmark paired with its index, built by enumerating the hand. */
  method EnumerateLandmarks(hand: DetectedHand) returns (landmarkList: seq<(nat, Landmark)>)
    ensures |landmarkList| == |hand|
    ensures forall k :: 0 <= k < |hand| ==> landmarkList[k] == (k, hand[k])
  {
    landmarkList := [];
    var id := 0;
    while id < |hand|
      invariant 0 <= id <= |hand|
      invariant |landmarkList| == id
      invariant forall k :: 0 <= k < id ==> landmarkList[k] == (k, hand[k])
    {
      landmarkList := landmarkList + [(id, hand[id])];
      id := id + 1;
    }
  }

  /**
   * One joystick component: the offset remapped from the calibration window
   * `[-dim//divider, dim//divider]` onto the axis range, clamped, then
   * truncated by `int()`.
   */
  method ScaledAxis(offset: int, dim: nat, joystickMin: int, joystickMax: int, ghost p: Platform) returns (v: int)
    requires dim > 0 && joystickMin == AxisMin(p) && joystickMax == AxisMax(p)
    ensures v == AxisValue(offset, dim, p)
  {
    var scaled := LinearScalingJoystick(offset as real, (-(dim as int) / Divider) as real, (dim / Divider) as real,
                                        joystickMin as real, joystickMax as real);
    v := Trunc(scaled);
  }
}
