/**
 * Backend mapping (`set_controller_input_linux`, `set_controller_input_windows`
 * and `set_controller_input`, hand_gamepad.py): the two hand states become
 * the calls made on the virtual gamepad. The driver is modelled by the log
 * of calls it receives, and by the controller state that replaying that log
 * produces.
 */
module ControllerBackend {
  import opened JoystickInput

  /** The uinput event codes the Linux mapping writes. */
  datatype EventCode = AbsX | AbsY | BtnZ | AbsRx | AbsRy | BtnTl

  /** One call on the virtual device. */
  datatype DeviceCall =
    | Emit(code: EventCode, value: int)      // uinput `device.emit(code, value)`
    | LeftTrigger(value: int)                // vgamepad `left_trigger`
    | RightTrigger(value: int)               // vgamepad `right_trigger`
    | LeftJoystick(x: int, y: int)           // vgamepad `left_joystick`
    | RightJoystick(x: int, y: int)          // vgamepad `right_joystick`
    | Update                                 // vgamepad `update`

  /** The virtual gamepad, seen through the calls it has received. */
  class VirtualDevice {
    var log: seq<DeviceCall>

    constructor ()
      ensures log == []
    {
      log := [];
    }
  }

  /** Button value on Linux: `int(not is_hand_open)`. */
  function ButtonValue(isHandOpen: bool): int { if isHandOpen then 0 else 1 }

  /** Trigger pull on Windows: full (255) for a closed hand, released (0) for an open one. */
  function TriggerValue(isHandOpen: bool): int { if isHandOpen then 0 else 255 }

  /** The calls `set_controller_input_linux` makes. */
  function LinuxCalls(left: InputData, right: InputData): seq<DeviceCall>
  {
    [Emit(AbsX, left.joystickX), Emit(AbsY, left.joystickY), Emit(BtnZ, ButtonValue(left.isHandOpen)),
     Emit(AbsRx, right.joystickX), Emit(AbsRy, right.joystickY), Emit(BtnTl, ButtonValue(right.isHandOpen))]
  }

  /** The calls `set_controller_input_windows` makes. */
  function WindowsCalls(left: InputData, right: InputData): seq<DeviceCall>
  {
    [LeftTrigger(TriggerValue(left.isHandOpen)), RightTrigger(TriggerValue(right.isHandOpen)),
     LeftJoystick(left.joystickX, left.joystickY * -1), RightJoystick(right.joystickX, right.joystickY * -1),
     Update]
  }

  /** The calls `set_controller_input` makes: nothing on a platform it does not know. */
  function ControllerCalls(p: Platform, left: InputData, right: InputData): seq<DeviceCall>
  {
    match p
    case Windows => WindowsCalls(left, right)
    case Linux => LinuxCalls(left, right)
    case OtherPlatform => []
  }

  /** A controller's visible state: both sticks and both trigger/button values. */
  datatype PadState = PadState(leftX: int, leftY: int, rightX: int, rightY: int, leftPull: int, rightPull: int)

  /** A uinput event takes effect at once (python-uinput syncs each emit). */
  function ApplyLinux(s: PadState, c: DeviceCall): PadState
  {
    match c
    case Emit(AbsX, v) => s.(leftX := v)
    case Emit(AbsY, v) => s.(leftY := v)
    case Emit(BtnZ, v) => s.(leftPull := v)
    case Emit(AbsRx, v) => s.(rightX := v)
    case Emit(AbsRy, v) => s.(rightY := v)
    case Emit(BtnTl, v) => s.(rightPull := v)
    case _ => s
  }

  function ReplayLinux(s: PadState, calls: seq<DeviceCall>): PadState
    decreases |calls|
  {
    if calls == [] then s else ReplayLinux(ApplyLinux(s, calls[0]), calls[1..])
  }

  /** A vgamepad keeps a pending report and sends it on `update`. */
  datatype XReport = XReport(pending: PadState, sent: PadState)

  function ApplyWindows(r: XReport, c: DeviceCall): XReport
  {
    match c
    case LeftTrigger(v) => r.(pending := r.pending.(leftPull := v))
    case RightTrigger(v) => r.(pending := r.pending.(rightPull := v))
    case LeftJoystick(x, y) => r.(pending := r.pending.(leftX := x, leftY := y))
    case RightJoystick(x, y) => r.(pending := r.pending.(rightX := x, rightY := y))
    case Update => r.(sent := r.pending)
    case Emit(_, _) => r
  }

  function ReplayWindows(r: XReport, calls: seq<DeviceCall>): XReport
    decreases |calls|
  {
    if calls == [] then r else ReplayWindows(ApplyWindows(r, calls[0]), calls[1..])
  }

  /**
   * Whatever the device showed before, after the Linux calls it shows the
   * two axes unchanged and each button at 1 exactly when that hand is closed.
   */
  lemma LinuxMapping(s: PadState, left: InputData, right: InputData)
    ensures ReplayLinux(s, LinuxCalls(left, right)) ==
            PadState(left.joystickX, left.joystickY, right.joystickX, right.joystickY,
                     ButtonValue(left.isHandOpen), ButtonValue(right.isHandOpen))
    ensures ButtonValue(left.isHandOpen) == 1 <==> !left.isHandOpen
    ensures ButtonValue(right.isHandOpen) == 1 <==> !right.isHandOpen
  {
    var t := LinuxCalls(left, right);
    var s1 := ApplyLinux(s, t[0]);
    var s2 := ApplyLinux(s1, t[1]);
    var s3 := ApplyLinux(s2, t[2]);
    var s4 := ApplyLinux(s3, t[3]);
    var s5 := ApplyLinux(s4, t[4]);
    LinuxUnfold(s, t, 0);
    LinuxUnfold(s1, t, 1);
    LinuxUnfold(s2, t, 2);
    LinuxUnfold(s3, t, 3);
    LinuxUnfold(s4, t, 4);
    LinuxUnfold(s5, t, 5);
    assert t[6..] == [];
  }

  lemma LinuxUnfold(s: PadState, calls: seq<DeviceCall>, k: nat)
    requires k < |calls|
    ensures ReplayLinux(s, calls[k..]) == ReplayLinux(ApplyLinux(s, calls[k]), calls[k + 1..])
  {
    assert calls[k..][1..] == calls[k + 1..];
  }

  lemma WindowsUnfold(r: XReport, calls: seq<DeviceCall>, k: nat)
    requires k < |calls|
    ensures ReplayWindows(r, calls[k..]) == ReplayWindows(ApplyWindows(r, calls[k]), calls[k + 1..])
  {
    assert calls[k..][1..] == calls[k + 1..];
  }

  /** The Linux events go out as ABS_X, ABS_Y, BTN_Z, ABS_RX, ABS_RY, BTN_TL. */
  lemma LinuxEventOrder(left: InputData, right: InputData)
    ensures |LinuxCalls(left, right)| == 6
    ensures forall k :: 0 <= k < |LinuxCalls(left, right)| ==> LinuxCalls(left, right)[k].Emit?
    ensures seq(6, k requires 0 <= k < 6 => LinuxCalls(left, right)[k].code) == [AbsX, AbsY, BtnZ, AbsRx, AbsRy, BtnTl]
  {
  }

  /**
   * Whatever the device sent before, after the Windows calls it has sent
   * each trigger at 255 exactly when that hand is closed (else 0), each x
   * unchanged and each y negated.
   */
  lemma WindowsMapping(r: XReport, left: InputData, right: InputData)
    ensures ReplayWindows(r, WindowsCalls(left, right)).sent ==
            PadState(left.joystickX, -left.joystickY, right.joystickX, -right.joystickY,
                     TriggerValue(left.isHandOpen), TriggerValue(right.isHandOpen))
    ensures var sent := ReplayWindows(r, WindowsCalls(left, right)).sent;
            && (sent.leftPull == 255 <==> !left.isHandOpen) && (sent.leftPull == 0 <==> left.isHandOpen)
            && (sent.rightPull == 255 <==> !right.isHandOpen) && (sent.rightPull == 0 <==> right.isHandOpen)
  {
    var t := WindowsCalls(left, right);
    var r1 := ApplyWindows(r, t[0]);
    var r2 := ApplyWindows(r1, t[1]);
    var r3 := ApplyWindows(r2, t[2]);
    var r4 := ApplyWindows(r3, t[3]);
    WindowsUnfold(r, t, 0);
    WindowsUnfold(r1, t, 1);
    WindowsUnfold(r2, t, 2);
    WindowsUnfold(r3, t, 3);
    WindowsUnfold(r4, t, 4);
    assert t[5..] == [];
  }

  /** Windows: exactly one `update`, as the last call; nothing is sent before it. */
  lemma WindowsSingleUpdate(r: XReport, left: InputData, right: InputData)
    ensures WindowsCalls(left, right)[|WindowsCalls(left, right)| - 1] == Update
    ensures forall k :: 0 <= k < |WindowsCalls(left, right)| - 1 ==> WindowsCalls(left, right)[k] != Update
    ensures forall k :: 0 <= k < |WindowsCalls(left, right)| ==>
              ReplayWindows(r, WindowsCalls(left, right)[..k]).sent == r.sent
  {
    var t := WindowsCalls(left, right);
    forall k | 0 <= k < |t|
      ensures ReplayWindows(r, t[..k]).sent == r.sent
    {
      PrefixSendsNothing(r, t[..k]);
    }
  }

  lemma {:induction false} PrefixSendsNothing(r: XReport, calls: seq<DeviceCall>)
    requires forall k :: 0 <= k < |calls| ==> calls[k] != Update
    ensures ReplayWindows(r, calls).sent == r.sent
    decreases |calls|
  {
    if calls != [] {
      PrefixSendsNothing(ApplyWindows(r, calls[0]), calls[1..]);
    }
  }

  /** Negating a y inside [-32767, 32767] stays inside it, so the Windows stick values are in range. */
  lemma WindowsValuesInRange(left: InputData, right: InputData)
    requires InAxisRange(left, Windows) && InAxisRange(right, Windows)
    ensures forall c :: c in WindowsCalls(left, right) && (c.LeftJoystick? || c.RightJoystick?) ==>
              -32767 <= c.x <= 32767 && -32767 <= c.y <= 32767
    ensures forall c :: c in WindowsCalls(left, right) && (c.LeftTrigger? || c.RightTrigger?) ==>
              c.value == 0 || c.value == 255
  {
  }

  /**
   * Both backends carry the same meaning: a closed hand is a pulled
   * trigger, and the sticks agree on x and on y up to the sign convention.
   */
  lemma BackendsAgree(s: PadState, r: XReport, left: InputData, right: InputData)
    ensures var lin, win := ReplayLinux(s, LinuxCalls(left, right)), ReplayWindows(r, WindowsCalls(left, right)).sent;
            && (lin.leftPull != 0 <==> win.leftPull != 0)
            && (lin.rightPull != 0 <==> win.rightPull != 0)
            && lin.leftX == win.leftX && lin.rightX == win.rightX
            && lin.leftY == -win.leftY && lin.rightY == -win.rightY
  {
    LinuxMapping(s, left, right);
    WindowsMapping(r, left, right);
  }

  /** `set_controller_input_linux`: six emits, left hand first. */
  method SetControllerInputLinux(device: VirtualDevice, left: InputData, right: InputData)
    modifies device
    ensures device.log == old(device.log) + LinuxCalls(left, right)
  {
    device.log := device.log + [Emit(AbsX, left.joystickX)];
    device.log := device.log + [Emit(AbsY, left.joystickY)];
    device.log := device.log + [Emit(BtnZ, ButtonValue(left.isHandOpen))];

    device.log := device.log + [Emit(AbsRx, right.joystickX)];
    device.log := device.log + [Emit(AbsRy, right.joystickY)];
    device.log := device.log + [Emit(BtnTl, ButtonValue(right.isHandOpen))];
  }

  /** `set_controller_input_windows`: both triggers, both sticks (y negated), then one update. */
  method SetControllerInputWindows(device: VirtualDevice, left: InputData, right: InputData)
    modifies device
    ensures device.log == old(device.log) + WindowsCalls(left, right)
  {
    if !left.isHandOpen {
      device.log := device.log + [LeftTrigger(255)];
    } else {
      device.log := device.log + [LeftTrigger(0)];
    }

    if !right.isHandOpen {
      device.log := device.log + [RightTrigger(255)];
    } else {
      device.log := device.log + [RightTrigger(0)];
    }

    device.log := device.log + [LeftJoystick(left.joystickX, left.joystickY * -1)];
    device.log := device.log + [RightJoystick(right.joystickX, right.joystickY * -1)];
    device.log := device.log + [Update];
  }

  /** `set_controller_input`: dispatch on the platform. */
  method SetControllerInput(p: Platform, device: VirtualDevice, left: InputData, right: InputData)
    modifies device
    ensures device.log == old(device.log) + ControllerCalls(p, left, right)
  {
    if p == Windows {
      SetControllerInputWindows(device, left, right);
    } else if p == Linux {
      SetControllerInputLinux(device, left, right);
    }
  }
}
