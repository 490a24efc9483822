/**
 * The session loop (hand_gamepad.py, the `while True` loop at the end of
 * the script): each round splits the camera frame into two halves, and
 * unless paused computes both hand states and hands them to the backend;
 * then it reads one key, where `p` toggles the pause and `q` ends the loop.
 *
 * The camera, the detector and the keyboard are replaced by a finite stream
 * of rounds, each giving the detections for both halves and the key read.
 */
module SessionLoop {
  import opened Helpers
  import opened HandOpenness
  import opened JoystickInput
  import opened ControllerBackend

  const PauseKey: int := 'p' as int
  const QuitKey: int := 'q' as int

  /** The size of the (mirrored) camera frame. */
  datatype Camera = Camera(width: nat, height: nat)

  /** `frame[:, :half]` with `half = w//2`. */
  function LeftHalf(c: Camera): FrameHalf { FrameHalf(c.width / 2, c.height) }

  /** `frame[:, half:]`. */
  function RightHalf(c: Camera): FrameHalf { FrameHalf(c.width - c.width / 2, c.height) }

  /** What one round of the loop observes: the hands found in each half, and the key. */
  datatype Round = Round(leftHands: seq<DetectedHand>, rightHands: seq<DetectedHand>, key: int)

  /** `in_pause`, and whether the loop has broken out. */
  datatype LoopState = LoopState(inPause: bool, stopped: bool)

  const Initial: LoopState := LoopState(false, false)

  /** One observable step of a round: a call of `set_controller_input`, or the key read. */
  datatype Phase = Emitted(left: InputData, right: InputData) | KeyRead(key: int)

  /** The session's configuration: camera size, platform and the square root. */
  datatype Config = Config(camera: Camera, platform: Platform, sqrt: real -> real)

  /**
   * What the loop needs: a known backend (otherwise `device` is never bound
   * and the call to `set_controller_input` fails), half frames with pixels
   * on both sides, and the root the distances use.
   */
  ghost predicate ValidConfig(cfg: Config)
  {
    && cfg.platform != OtherPlatform
    && cfg.camera.width / 2 > 0 && cfg.camera.height > 0
    && NonNegativeRoot(cfg.sqrt)
  }

  /** The detector reports every landmark of the first hand in each half. */
  predicate ValidRound(r: Round)
  {
    (r.leftHands != [] ==> HasFingerTips(r.leftHands[0])) && (r.rightHands != [] ==> HasFingerTips(r.rightHands[0]))
  }

  ghost predicate ValidRounds(rounds: seq<Round>)
  {
    forall k :: 0 <= k < |rounds| ==> ValidRound(rounds[k])
  }

  function LeftInput(cfg: Config, r: Round): InputData
    requires ValidConfig(cfg) && ValidRound(r)
  {
    FrameInput(cfg.sqrt, LeftHalf(cfg.camera), r.leftHands, cfg.platform)
  }

  function RightInput(cfg: Config, r: Round): InputData
    requires ValidConfig(cfg) && ValidRound(r)
  {
    FrameInput(cfg.sqrt, RightHalf(cfg.camera), r.rightHands, cfg.platform)
  }

  /** The key test at the end of a round: `p` toggles the pause, `q` breaks. */
  function HandleKey(s: LoopState, key: int): LoopState
  {
    LoopState(if key == PauseKey then !s.inPause else s.inPause, key == QuitKey)
  }

  /** What one round does, in order: emit (unless paused), then read the key. */
  function RoundPhases(cfg: Config, s: LoopState, r: Round): seq<Phase>
    requires ValidConfig(cfg) && ValidRound(r)
  {
    (if s.inPause then [] else [Emitted(LeftInput(cfg, r), RightInput(cfg, r))]) + [KeyRead(r.key)]
  }

  datatype Outcome = Outcome(final: LoopState, rounds: nat, phases: seq<Phase>)

  /**
   * The loop from state s over the rounds from index i on, until `q` or the
   * end of the stream: the final state, how many rounds ran, and what they did.
   */
  function Run(cfg: Config, s: LoopState, rounds: seq<Round>, i: nat): Outcome
    requires ValidConfig(cfg) && ValidRounds(rounds) && i <= |rounds|
    decreases |rounds| - i
  {
    if s.stopped || i == |rounds| then Outcome(s, 0, [])
    else
      var rest := Run(cfg, HandleKey(s, rounds[i].key), rounds, i + 1);
      Outcome(rest.final, rest.rounds + 1, RoundPhases(cfg, s, rounds[i]) + rest.phases)
  }

  /** The device calls a sequence of phases makes. */
  function Calls(p: Platform, phases: seq<Phase>): seq<DeviceCall>
  {
    if phases == [] then [] else PhaseCalls(p, phases[0]) + Calls(p, phases[1..])
  }

  function PhaseCalls(p: Platform, phase: Phase): seq<DeviceCall>
  {
    match phase
    case Emitted(l, r) => ControllerCalls(p, l, r)
    case KeyRead(_) => []
  }

  lemma {:induction false} CallsAppend(p: Platform, a: seq<Phase>, b: seq<Phase>)
    ensures Calls(p, a + b) == Calls(p, a) + Calls(p, b)
    decreases |a|
  {
    if a != [] {
      assert (a + b)[0] == a[0];
      assert (a + b)[1..] == a[1..] + b;
      CallsAppend(p, a[1..], b);
    } else {
      assert a + b == b;
    }
  }

  /** The loop starts running. */
  lemma InitiallyRunning()
    ensures !Initial.inPause && !Initial.stopped
  {
  }

  /** Key `p` toggles the pause and keeps the loop going; `q` stops it whether paused or not. */
  lemma KeyTransitions(s: LoopState)
    ensures HandleKey(s, PauseKey) == LoopState(!s.inPause, false)
    ensures HandleKey(s, QuitKey) == LoopState(s.inPause, true)
    ensures forall k :: k != PauseKey && k != QuitKey ==> HandleKey(s, k) == LoopState(s.inPause, false)
  {
  }

  /** A paused round makes no emit call; it only reads the key. */
  lemma PausedRoundSilent(cfg: Config, s: LoopState, r: Round)
    requires ValidConfig(cfg) && ValidRound(r) && s.inPause
    ensures RoundPhases(cfg, s, r) == [KeyRead(r.key)]
    ensures Calls(cfg.platform, RoundPhases(cfg, s, r)) == []
  {
  }

  /**
   * A running round makes exactly one emit call, with this round's two
   * hand states, and it comes before the key is read.
   */
  lemma RunningRoundEmitsOnce(cfg: Config, s: LoopState, r: Round)
    requires ValidConfig(cfg) && ValidRound(r) && !s.inPause
    ensures RoundPhases(cfg, s, r) == [Emitted(LeftInput(cfg, r), RightInput(cfg, r)), KeyRead(r.key)]
    ensures Calls(cfg.platform, RoundPhases(cfg, s, r)) == ControllerCalls(cfg.platform, LeftInput(cfg, r), RightInput(cfg, r))
  {
    var ph := RoundPhases(cfg, s, r);
    assert ph[1..] == [KeyRead(r.key)];
    assert ph[1..][1..] == [];
    assert Calls(cfg.platform, ph[1..]) == [];
  }

  /** Key `q` ends the loop in the round it is read, paused or not. */
  lemma QuitStops(cfg: Config, s: LoopState, rounds: seq<Round>, i: nat)
    requires ValidConfig(cfg) && ValidRounds(rounds) && !s.stopped
    requires i < |rounds| && rounds[i].key == QuitKey
    ensures Run(cfg, s, rounds, i).rounds == 1
    ensures Run(cfg, s, rounds, i).final == LoopState(s.inPause, true)
    ensures Run(cfg, s, rounds, i).phases == RoundPhases(cfg, s, rounds[i])
  {
    assert ValidRound(rounds[i]);
    assert HandleKey(s, rounds[i].key).stopped;
    assert RoundPhases(cfg, s, rounds[i]) + [] == RoundPhases(cfg, s, rounds[i]);
  }

  /** The phases of the rounds from index i on when they only read keys. */
  function KeyReads(rounds: seq<Round>, i: nat): seq<Phase>
    requires i <= |rounds|
    decreases |rounds| - i
  {
    if i == |rounds| then [] else [KeyRead(rounds[i].key)] + KeyReads(rounds, i + 1)
  }

  lemma {:induction false} KeyReadsCallNothing(p: Platform, rounds: seq<Round>, i: nat)
    requires i <= |rounds|
    ensures Calls(p, KeyReads(rounds, i)) == []
    decreases |rounds| - i
  {
    if i < |rounds| {
      KeyReadsCallNothing(p, rounds, i + 1);
      var k := KeyReads(rounds, i);
      assert k[0] == KeyRead(rounds[i].key);
      assert k[1..] == KeyReads(rounds, i + 1);
    }
  }

  /**
   * While paused and no `p` or `q` arrives, any number of rounds makes no
   * emit call and leaves the state as it was: the device keeps its last
   * values.
   */
  lemma PauseFreezes(cfg: Config, s: LoopState, rounds: seq<Round>, i: nat)
    requires ValidConfig(cfg) && ValidRounds(rounds) && i <= |rounds|
    requires s.inPause && !s.stopped
    requires forall k :: i <= k < |rounds| ==> rounds[k].key != PauseKey && rounds[k].key != QuitKey
    ensures Run(cfg, s, rounds, i) == Outcome(s, |rounds| - i, KeyReads(rounds, i))
    ensures Calls(cfg.platform, Run(cfg, s, rounds, i).phases) == []
  {
    PausedRun(cfg, s, rounds, i);
    KeyReadsCallNothing(cfg.platform, rounds, i);
  }

  lemma {:induction false} PausedRun(cfg: Config, s: LoopState, rounds: seq<Round>, i: nat)
    requires ValidConfig(cfg) && ValidRounds(rounds) && i <= |rounds|
    requires s.inPause && !s.stopped
    requires forall k :: i <= k < |rounds| ==> rounds[k].key != PauseKey && rounds[k].key != QuitKey
    ensures Run(cfg, s, rounds, i) == Outcome(s, |rounds| - i, KeyReads(rounds, i))
    decreases |rounds| - i
  {
    if i < |rounds| {
      var r := rounds[i];
      assert ValidRound(r);
      PausedRoundSilent(cfg, s, r);
      assert HandleKey(s, r.key) == s;
      PausedRun(cfg, s, rounds, i + 1);
    }
  }

  /**
   * Resuming: a paused loop that reads `p` makes, in the next round, exactly
   * the emit call for that round's frame.
   */
  lemma ResumeEmits(cfg: Config, s: LoopState, rounds: seq<Round>, i: nat)
    requires ValidConfig(cfg) && ValidRounds(rounds) && i + 1 < |rounds|
    requires s.inPause && !s.stopped && rounds[i].key == PauseKey
    ensures ValidRound(rounds[i + 1])
    ensures |Run(cfg, s, rounds, i).phases| >= 3
    ensures Run(cfg, s, rounds, i).phases[..3] ==
            [KeyRead(PauseKey), Emitted(LeftInput(cfg, rounds[i + 1]), RightInput(cfg, rounds[i + 1])), KeyRead(rounds[i + 1].key)]
  {
    var r0, r1 := rounds[i], rounds[i + 1];
    assert ValidRound(r0) && ValidRound(r1);
    var s1 := HandleKey(s, PauseKey);
    assert !s1.inPause && !s1.stopped;
    RunningRoundEmitsOnce(cfg, s1, r1);
    PausedRoundSilent(cfg, s, r0);
    var tail := Run(cfg, HandleKey(s1, r1.key), rounds, i + 2);
    assert Run(cfg, s1, rounds, i + 1).phases == RoundPhases(cfg, s1, r1) + tail.phases;
    assert Run(cfg, s, rounds, i).phases == [KeyRead(PauseKey)] + (RoundPhases(cfg, s1, r1) + tail.phases);
  }

  /**
   * The session loop: while running, compute both hand states and emit
   * them; then read the key, toggle on `p`, break on `q`. Returns the
   * number of rounds run and the final pause flag.
   */
  method RunSession(cfg: Config, device: VirtualDevice, rounds: seq<Round>) returns (count: nat, inPause: bool)
    requires ValidConfig(cfg) && ValidRounds(rounds)
    modifies device
    ensures count == Run(cfg, Initial, rounds, 0).rounds
    ensures inPause == Run(cfg, Initial, rounds, 0).final.inPause
    ensures device.log == old(device.log) + Calls(cfg.platform, Run(cfg, Initial, rounds, 0).phases)
  {
    inPause := false;
    count := 0;
    ghost var start := device.log;
    ghost var total := Run(cfg, Initial, rounds, 0);
    var i := 0;
    while i < |rounds|
      invariant 0 <= i <= |rounds| && count == i
      invariant Run(cfg, LoopState(inPause, false), rounds, i).final == total.final
      invariant count + Run(cfg, LoopState(inPause, false), rounds, i).rounds == total.rounds
      invariant device.log + Calls(cfg.platform, Run(cfg, LoopState(inPause, false), rounds, i).phases) == start + Calls(cfg.platform, total.phases)
      decreases |rounds| - i
    {
      var round := rounds[i];
      ghost var s := LoopState(inPause, false);
      ghost var before := device.log;
      assert ValidRound(round);
      var quit;
      inPause, quit := PlayRound(cfg, device, round, inPause);
      count := count + 1;
      if quit {
        LoopQuit(cfg, s, rounds, i, start, total, before, device.log);
        return;
      }
      LoopAdvance(cfg, s, LoopState(inPause, false), rounds, i, start, total, before, device.log);
      i := i + 1;
    }
    LoopEnd(cfg, LoopState(inPause, false), rounds);
  }

  /**
   * One pass of the loop body: unless paused, both hand states from both
   * halves and one emit call; then the key test. Returns the new pause flag
   * and whether the loop breaks.
   */
  method PlayRound(cfg: Config, device: VirtualDevice, round: Round, inPause: bool) returns (nextPause: bool, quit: bool)
    requires ValidConfig(cfg) && ValidRound(round)
    modifies device
    ensures LoopState(nextPause, quit) == HandleKey(LoopState(inPause, false), round.key)
    ensures device.log == old(device.log) + Calls(cfg.platform, RoundPhases(cfg, LoopState(inPause, false), round))
  {
    if !inPause {
      var leftInput := GetInputFromFrame(cfg.sqrt, LeftHalf(cfg.camera), round.leftHands, cfg.platform);
      var rightInput := GetInputFromFrame(cfg.sqrt, RightHalf(cfg.camera), round.rightHands, cfg.platform);
      SetControllerInput(cfg.platform, device, leftInput, rightInput);
      RunningRoundEmitsOnce(cfg, LoopState(inPause, false), round);
    } else {
      PausedRoundSilent(cfg, LoopState(inPause, false), round);
    }
    var key := round.key;
    nextPause := inPause;
    if key == PauseKey {
      nextPause := !nextPause;
    }
    quit := key == QuitKey;
  }

  lemma AppendAssoc<T>(a: seq<T>, b: seq<T>, c: seq<T>)
    ensures (a + b) + c == a + (b + c)
  {
  }

  /** One round that does not quit: the loop's invariant carries over to the next index. */
  lemma LoopAdvance(cfg: Config, s: LoopState, t: LoopState, rounds: seq<Round>, i: nat, start: seq<DeviceCall>, total: Outcome,
                    before: seq<DeviceCall>, after: seq<DeviceCall>)
    requires ValidConfig(cfg) && ValidRounds(rounds) && i < |rounds| && !s.stopped && rounds[i].key != QuitKey
    requires t == HandleKey(s, rounds[i].key)
    requires ValidRound(rounds[i]) && after == before + Calls(cfg.platform, RoundPhases(cfg, s, rounds[i]))
    requires before + Calls(cfg.platform, Run(cfg, s, rounds, i).phases) == start + Calls(cfg.platform, total.phases)
    ensures Run(cfg, s, rounds, i).final == Run(cfg, t, rounds, i + 1).final
    ensures Run(cfg, s, rounds, i).rounds == Run(cfg, t, rounds, i + 1).rounds + 1
    ensures after + Calls(cfg.platform, Run(cfg, t, rounds, i + 1).phases) == start + Calls(cfg.platform, total.phases)
  {
    RunStep(cfg, s, rounds, i);
    RunStepCalls(cfg, s, rounds, i);
    AppendAssoc(before, Calls(cfg.platform, RoundPhases(cfg, s, rounds[i])), Calls(cfg.platform, Run(cfg, HandleKey(s, rounds[i].key), rounds, i + 1).phases));
  }

  /** The round that reads `q`: the loop ends with this round's calls as the last ones. */
  lemma LoopQuit(cfg: Config, s: LoopState, rounds: seq<Round>, i: nat, start: seq<DeviceCall>, total: Outcome,
                 before: seq<DeviceCall>, after: seq<DeviceCall>)
    requires ValidConfig(cfg) && ValidRounds(rounds) && i < |rounds| && !s.stopped && rounds[i].key == QuitKey
    requires ValidRound(rounds[i]) && after == before + Calls(cfg.platform, RoundPhases(cfg, s, rounds[i]))
    requires before + Calls(cfg.platform, Run(cfg, s, rounds, i).phases) == start + Calls(cfg.platform, total.phases)
    ensures Run(cfg, s, rounds, i) == Outcome(LoopState(s.inPause, true), 1, RoundPhases(cfg, s, rounds[i]))
    ensures after == start + Calls(cfg.platform, total.phases)
  {
    QuitStops(cfg, s, rounds, i);
  }

  /** The end of the stream: nothing is left to run. */
  lemma LoopEnd(cfg: Config, s: LoopState, rounds: seq<Round>)
    requires ValidConfig(cfg) && ValidRounds(rounds)
    ensures Run(cfg, s, rounds, |rounds|) == Outcome(s, 0, [])
    ensures Calls(cfg.platform, Run(cfg, s, rounds, |rounds|).phases) == []
  {
  }

  /** One round of the loop, read off the specification. */
  lemma RunStep(cfg: Config, s: LoopState, rounds: seq<Round>, i: nat)
    requires ValidConfig(cfg) && ValidRounds(rounds) && i < |rounds| && !s.stopped
    ensures ValidRound(rounds[i])
    ensures var next := Run(cfg, HandleKey(s, rounds[i].key), rounds, i + 1);
            Run(cfg, s, rounds, i) == Outcome(next.final, next.rounds + 1, RoundPhases(cfg, s, rounds[i]) + next.phases)
  {
    assert ValidRound(rounds[i]);
  }

  /** The device calls of a round followed by the rest of the loop. */
  lemma RunStepCalls(cfg: Config, s: LoopState, rounds: seq<Round>, i: nat)
    requires ValidConfig(cfg) && ValidRounds(rounds) && i < |rounds| && !s.stopped
    ensures ValidRound(rounds[i])
    ensures Calls(cfg.platform, Run(cfg, s, rounds, i).phases) ==
            Calls(cfg.platform, RoundPhases(cfg, s, rounds[i])) + Calls(cfg.platform, Run(cfg, HandleKey(s, rounds[i].key), rounds, i + 1).phases)
  {
    RunStep(cfg, s, rounds, i);
    CallsAppend(cfg.platform, RoundPhases(cfg, s, rounds[i]), Run(cfg, HandleKey(s, rounds[i].key), rounds, i + 1).phases);
  }
}
